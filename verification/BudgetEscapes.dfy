/** Moves that escape the count, exactly: from which states can transactions that obey the gate from
    now on still take a provider over its budget, and what a dispatch that names no provider, or a
    budget created late, does to that. */
module BudgetEscapes {
  import opened ProviderBudgets

  // ---------------------------------------------------------------------------
  // Continuations that obey the gate

  /** The budget row of `k` stands, and no dispatch skips its count. */
  predicate Obeys(step: Step, k: Key) {
    && !(step.SetBudget? && step.k == k)
    && !(step.DeleteBudget? && step.k == k)
    && !(step.SkipCheck? && Key(step.ws, DEFAULT_PROVIDER) == k)
  }

  predicate Obedient(steps: seq<Step>, k: Key) {
    forall step | step in steps :: Obeys(step, k)
  }

  /** Whatever obedient transactions do from here on, `k` stays within its budget. */
  ghost predicate Safe(st: State, k: Key) {
    k in st.budgets && forall more | Obedient(more, k) :: Load(Run(st, more), k) <= st.budgets[k]
  }

  /** Whatever obedient transactions do, no step of theirs raises the load of `k` above its budget. */
  ghost predicate NeverOverrun(st: State, k: Key) {
    k in st.budgets && forall more, step | Obedient(more + [step], k) ::
      var before, after := Run(st, more), Apply(Run(st, more), step);
      Load(after, k) > Load(before, k) ==> Load(after, k) <= st.budgets[k]
  }

  /** Past the count of `k` without having counted, or holding such a move. */
  ghost predicate Escaped(txn: Txn, k: Key) {
    txn.check == Passed(k, false) || exists a :: a in Own(txn, k) && a in txn.ungated
  }

  lemma GatedMeansNoneEscaped(st: State, k: Key)
    ensures AllGated(st, k) <==> forall t | t in st.txns :: !Escaped(st.txns[t], k)
  {
    hide Own;
  }

  /** In flight, uncommitted moves of the lock's owner, and the move it may still make. */
  function Pledged(st: State, k: Key): nat {
    Load(st, k) +
    (if k in st.locks && st.locks[k] in st.txns then
       |Own(st.txns[st.locks[k]], k)| + (if PassedOn(st.txns[st.locks[k]], k) then 1 else 0)
     else 0)
  }

  predicate PassedOn(txn: Txn, k: Key) {
    txn.check.Passed? && txn.check.key == k
  }

  // ---------------------------------------------------------------------------
  // Whoever is past the gate owns the lock: then the pledge never grows

  /** Counting, passed, or holding any move under `k`. */
  predicate Involved(txn: Txn, k: Key) {
    txn.check == Counting(k) || PassedOn(txn, k) || Own(txn, k) != {}
  }

  /** Everyone involved with `k` is the one transaction that owns its lock. */
  ghost predicate Solo(st: State, k: Key) {
    && k in st.budgets
    && (k in st.locks ==> st.locks[k] in st.txns)
    && forall t | t in st.txns && Involved(st.txns[t], k) :: k in st.locks && st.locks[k] == t
  }

  lemma SoloExactly(st: State, k: Key)
    requires LockInv(st, k) && k in st.budgets
    ensures Solo(st, k) <==> forall t | t in st.txns && Escaped(st.txns[t], k) :: k in st.locks && st.locks[k] == t
  {
  }

  /** A step keeps the gate single-file and the pledge from growing. */
  ghost predicate Keeps(st: State, next: State, k: Key)
    requires k in st.budgets
  {
    Solo(next, k) && next.budgets[k] == st.budgets[k] && Pledged(next, k) <= Pledged(st, k)
  }

  lemma KeepsLock(st: State, t: TxnId, k: Key)
    requires Solo(st, k)
    ensures Keeps(st, Apply(st, LockBudget(t, k)), k)
  {
  }

  lemma KeepsOtherLock(st: State, t: TxnId, locked: Key, k: Key)
    requires Solo(st, k) && locked != k
    ensures Keeps(st, Apply(st, LockBudget(t, locked)), k)
  {
  }

  /** A count may pledge one more, but only below the budget. */
  lemma CountKeepsBound(st: State, t: TxnId, k: Key)
    requires Solo(st, k) && Pledged(st, k) <= st.budgets[k]
    ensures var next := Apply(st, CountInFlight(t));
      Solo(next, k) && next.budgets == st.budgets && Pledged(next, k) <= st.budgets[k]
  {
    hide InFlight;
  }

  lemma KeepsGrant(st: State, t: TxnId, a: AssignmentId, k: Key)
    requires Solo(st, k)
    ensures Keeps(st, Apply(st, Grant(t, a)), k)
  {
    if MoveIntoFlight(st, t, a) != st {
      OwnAfterMove(st, t, a, k);
    }
  }

  lemma KeepsCommit(st: State, t: TxnId, k: Key)
    requires Solo(st, k) && MovesInv(st)
    ensures Keeps(st, Apply(st, Commit(t)), k)
  {
    hide MovesInv, InFlight, Own;
    if t in st.txns {
      CommitAdds(st, t, k);
      assert Own(st.txns[t], k) != {} ==> k in st.locks && st.locks[k] == t;
    }
  }

  lemma KeepsEnd(st: State, step: Step, k: Key)
    requires Solo(st, k) && (step.Abort? || step.RollbackToSavepoint?)
    ensures Keeps(st, Apply(st, step), k)
  {
  }

  lemma KeepsRest(st: State, step: Step, k: Key)
    requires Solo(st, k) && Obeys(step, k)
    requires step.AddPending? || step.SetBudget? || step.DeleteBudget? || step.Begin? || step.SkipCheck? || step.Leave?
    ensures Keeps(st, Apply(st, step), k)
  {
    OnlyCommitsAdd(st, step, k);
    hide InFlight;
  }

  /** Single file, and what is pledged fits. */
  ghost predicate Bounded(st: State, k: Key) {
    MovesInv(st) && Solo(st, k) && Pledged(st, k) <= st.budgets[k]
  }

  lemma BoundedStep(st: State, step: Step, k: Key)
    requires Bounded(st, k) && Obeys(step, k)
    ensures Bounded(Apply(st, step), k) && Apply(st, step).budgets[k] == st.budgets[k]
  {
    MovesStep(st, step);
    hide Apply, Pledged, MovesInv;
    match step
    case LockBudget(t, locked) => if locked == k { KeepsLock(st, t, k); } else { KeepsOtherLock(st, t, locked, k); }
    case CountInFlight(t) => CountKeepsBound(st, t, k);
    case Grant(t, a) => KeepsGrant(st, t, a, k);
    case Commit(t) => KeepsCommit(st, t, k);
    case Abort(t) => KeepsEnd(st, step, k);
    case RollbackToSavepoint(t, released) => KeepsEnd(st, step, k);
    case _ => KeepsRest(st, step, k);
  }

  lemma {:induction false} BoundedRun(st: State, more: seq<Step>, k: Key)
    requires Bounded(st, k) && Obedient(more, k)
    ensures Bounded(Run(st, more), k) && Run(st, more).budgets[k] == st.budgets[k]
    decreases |more|
  {
    hide Apply, Bounded, Obeys;
    if more != [] {
      BoundedStep(st, more[0], k);
      BoundedRun(Apply(st, more[0]), more[1..], k);
    }
  }

  // ---------------------------------------------------------------------------
  // Reachable states and obedient continuations

  /** Some run ends in `st`. */
  ghost predicate Reachable(st: State) {
    exists steps :: Run(INIT, steps) == st
  }

  lemma ReachableInit()
    ensures Reachable(INIT)
  {
    assert Run(INIT, []) == INIT;
  }

  lemma {:induction false} RunAppend(st: State, steps: seq<Step>, step: Step)
    ensures Run(st, steps + [step]) == Apply(Run(st, steps), step)
    decreases |steps|
  {
    if steps == [] {
      assert steps + [step] == [step] && [step][1..] == [];
      assert Run(st, [step]) == Run(Apply(st, step), []);
    } else {
      assert (steps + [step])[1..] == steps[1..] + [step];
      RunAppend(Apply(st, steps[0]), steps[1..], step);
    }
  }

  lemma ReachableStep(st: State, step: Step, next: State)
    requires Reachable(st) && Apply(st, step) == next
    ensures Reachable(next)
  {
    var steps :| Run(INIT, steps) == st;
    RunAppend(INIT, steps, step);
  }

  lemma {:induction false} AnyRun(steps: seq<Step>, st: State, k: Key)
    requires LockInv(st, k) && MovesInv(st)
    ensures LockInv(Run(st, steps), k) && MovesInv(Run(st, steps))
    decreases |steps|
  {
    hide Apply, LockInv, MovesInv;
    if steps != [] {
      LockStep(st, steps[0], k);
      MovesStep(st, steps[0]);
      AnyRun(steps[1..], Apply(st, steps[0]), k);
    }
  }

  /** What holds of locks and moves in every reachable state, disciplined or not. */
  lemma ReachableInv(st: State, k: Key)
    requires Reachable(st)
    ensures LockInv(st, k) && MovesInv(st)
  {
    var steps :| Run(INIT, steps) == st;
    AnyRun(steps, INIT, k);
  }

  /** Obedient transactions can take `st` to `next`. */
  ghost predicate Leads(st: State, k: Key, next: State) {
    exists more :: Obedient(more, k) && Run(st, more) == next
  }

  lemma LeadsNowhere(st: State, k: Key)
    ensures Leads(st, k, st)
  {
    assert Obedient([], k) && Run(st, []) == st;
  }

  lemma LeadsOn(st: State, k: Key, before: State, step: Step, next: State)
    requires Leads(st, k, before) && Obeys(step, k) && Apply(before, step) == next
    ensures Leads(st, k, next)
  {
    var more :| Obedient(more, k) && Run(st, more) == before;
    RunAppend(st, more, step);
    assert Obedient(more + [step], k);
  }

  lemma {:induction false} Unused(s: set<nat>) returns (n: nat)
    ensures n !in s && forall x | x in s :: x < n
  {
    if s == {} {
      n := 0;
    } else {
      var e :| e in s;
      var m := Unused(s - {e});
      n := if e < m then m else e + 1;
      assert forall x | x in s :: x == e || x in s - {e};
    }
  }

  /** An assignment no row and no transaction knows. */
  lemma UnusedAssignment(st: State) returns (a: AssignmentId)
    ensures a !in st.rows && Untouched(st, a)
  {
    var moved := set t, x | t in st.txns && x in st.txns[t].grants :: x;
    a := Unused(st.rows.Keys + moved);
  }

  lemma OneMoreInFlight(rows: map<AssignmentId, Row>, a: AssignmentId, k: Key)
    requires a !in rows
    ensures |InFlight(rows[a := Row(k, true)], k)| == |InFlight(rows, k)| + 1
  {
    assert InFlight(rows[a := Row(k, true)], k) == InFlight(rows, k) + {a};
  }

  /** Begin, lock and count: a fresh transaction passes the gate. */
  lemma GateEntered(start: State, st: State, u: TxnId, k: Key) returns (next: State)
    requires Leads(start, k, st) && u !in st.txns && k.provider != ""
    requires k in st.budgets && k !in st.locks && Load(st, k) < st.budgets[k]
    ensures Leads(start, k, next)
    ensures next == st.(txns := st.txns[u := Txn(Passed(k, true), map[], {})], locks := st.locks[k := u])
  {
    hide Leads, InFlight;
    var s1 := st.(txns := st.txns[u := Txn(Idle, map[], {})]);
    LeadsOn(start, k, st, Begin(u), s1);
    var s2 := st.(txns := st.txns[u := Txn(Counting(k), map[], {})], locks := st.locks[k := u]);
    LeadsOn(start, k, s1, LockBudget(u, k), s2);
    next := s2.(txns := st.txns[u := Txn(Passed(k, true), map[], {})]);
    CountPasses(s2, u, k);
    LeadsOn(start, k, s2, CountInFlight(u), next);
  }

  /** A whole claim through the gate: begin, lock, count, move, commit. */
  lemma GatedClaim(start: State, st: State, k: Key) returns (next: State)
    requires Leads(start, k, st) && MovesInv(st) && k.provider != ""
    requires k in st.budgets && k !in st.locks && Load(st, k) < st.budgets[k]
    ensures Leads(start, k, next) && MovesInv(next)
    ensures next == st.(rows := next.rows) && Load(next, k) == Load(st, k) + 1
  {
    hide Leads, MovesInv, Apply;
    var a := UnusedAssignment(st);
    var u := Unused(st.txns.Keys + st.locks.Values);
    assert u !in st.txns && u !in st.locks.Values;
    var s3 := GateEntered(start, st, u, k);
    var s4 := st.(txns := st.txns[u := Txn(Idle, map[a := k], {})], locks := st.locks[k := u]);
    MovesAlone(st, s3, u, a, k);
    LeadsOn(start, k, s3, Grant(u, a), s4);
    next := st.(rows := st.rows[a := Row(k, true)]);
    CommitsAlone(st, s4, u, a, k);
    LeadsOn(start, k, s4, Commit(u), next);
    MovesKept(st, a, k);
    OneMoreInFlight(st.rows, a, k);
  }

  lemma MovesAlone(st: State, passed: State, u: TxnId, a: AssignmentId, k: Key)
    requires u !in st.txns && a !in st.rows && Untouched(st, a)
    requires passed == st.(txns := st.txns[u := Txn(Passed(k, true), map[], {})], locks := st.locks[k := u])
    ensures Apply(passed, Grant(u, a)) ==
      st.(txns := st.txns[u := Txn(Idle, map[a := k], {})], locks := st.locks[k := u])
  {
    assert Untouched(passed, a);
  }

  lemma CountPasses(st: State, t: TxnId, k: Key)
    requires t in st.txns && st.txns[t] == Txn(Counting(k), map[], {})
    requires k in st.budgets && Load(st, k) < st.budgets[k]
    ensures CountUnderLock(st, t) == st.(txns := st.txns[t := Txn(Passed(k, true), map[], {})])
  {
    assert Own(st.txns[t], k) == {};
  }

  lemma CommitsAlone(st: State, open: State, u: TxnId, a: AssignmentId, k: Key)
    requires u !in st.txns && u !in st.locks.Values && k !in st.locks
    requires open == st.(txns := st.txns[u := Txn(Idle, map[a := k], {})], locks := st.locks[k := u])
    ensures Apply(open, Commit(u)) == st.(rows := st.rows[a := Row(k, true)])
  {
    LockReturned(st, open, u, k);
    hide LocksWithout;
    assert open.txns - {u} == st.txns;
  }

  lemma LockReturned(st: State, open: State, u: TxnId, k: Key)
    requires u !in st.locks.Values && k !in st.locks && open.locks == st.locks[k := u]
    ensures LocksWithout(open, u) == st.locks
  {
    assert forall x | x in st.locks :: st.locks[x] in st.locks.Values;
  }

  lemma MovesKept(st: State, a: AssignmentId, k: Key)
    requires MovesInv(st) && Untouched(st, a)
    ensures MovesInv(st.(rows := st.rows[a := Row(k, true)]))
  {
  }

  /** Claims through the gate can fill any budget while another transaction stays open. */
  lemma {:induction false} Fill(start: State, st: State, k: Key) returns (next: State)
    requires Leads(start, k, st) && MovesInv(st) && k.provider != ""
    requires k in st.budgets && k !in st.locks
    ensures Leads(start, k, next) && MovesInv(next)
    ensures next == st.(rows := next.rows) && Load(next, k) >= st.budgets[k]
    decreases if Load(st, k) < st.budgets[k] then st.budgets[k] - Load(st, k) else 0
  {
    hide Leads, MovesInv;
    if Load(st, k) >= st.budgets[k] {
      next := st;
    } else {
      next := GatedClaim(start, st, k);
      next := Fill(start, next, k);
    }
  }

  // ---------------------------------------------------------------------------
  // An escaped transaction that does not own the lock can always be overtaken

  /** Obedient steps take `st` to a state from which committing `t` overruns the budget. */
  ghost predicate Overruns(st: State, t: TxnId, k: Key) {
    exists before :: Leads(st, k, before) && k in before.budgets
      && Load(Apply(before, Commit(t)), k) > before.budgets[k]
      && Load(Apply(before, Commit(t)), k) > Load(before, k)
  }

  /** Whoever owns the lock can abort first. */
  lemma Unlocked(st: State, t: TxnId, k: Key) returns (next: State)
    requires MovesInv(st) && t in st.txns && k in st.budgets
    requires k in st.locks ==> st.locks[k] in st.txns && st.locks[k] != t
    ensures Leads(st, k, next) && MovesInv(next) && k !in next.locks
    ensures next.budgets == st.budgets && t in next.txns && next.txns[t] == st.txns[t]
  {
    LeadsNowhere(st, k);
    next := st;
    if k in st.locks {
      next := Apply(st, Abort(st.locks[k]));
      LeadsOn(st, k, st, Abort(st.locks[k]), next);
      MovesStep(st, Abort(st.locks[k]));
    }
  }

  /** A pass without a count can still become a move. */
  lemma Moved(start: State, st: State, t: TxnId, k: Key) returns (next: State)
    requires Leads(start, k, st) && MovesInv(st) && t in st.txns && Escaped(st.txns[t], k)
    ensures Leads(start, k, next) && MovesInv(next) && t in next.txns && Own(next.txns[t], k) != {}
    ensures next.budgets == st.budgets && next.locks == st.locks
  {
    hide Leads;
    next := st;
    if Own(st.txns[t], k) == {} {
      var a := UnusedAssignment(st);
      next := Apply(st, Grant(t, a));
      LeadsOn(start, k, st, Grant(t, a), next);
      MovesStep(st, Grant(t, a));
      assert a in Own(next.txns[t], k);
    }
  }

  lemma EscapeOverruns(st: State, t: TxnId, k: Key)
    requires MovesInv(st) && k in st.budgets && k.provider != ""
    requires t in st.txns && Escaped(st.txns[t], k)
    requires k in st.locks ==> st.locks[k] in st.txns && st.locks[k] != t
    ensures Overruns(st, t, k)
  {
    hide Leads, MovesInv, Escaped, Own;
    var s1 := Unlocked(st, t, k);
    var s2 := Moved(st, s1, t, k);
    var s3 := Fill(st, s2, k);
    CommitAdds(s3, t, k);
    assert |Own(s3.txns[t], k)| > 0;
  }

  lemma OverrunIsUnsafe(st: State, t: TxnId, k: Key)
    requires Overruns(st, t, k) && k in st.budgets
    ensures !Safe(st, k) && !NeverOverrun(st, k)
  {
    var before :| Leads(st, k, before) && k in before.budgets
      && Load(Apply(before, Commit(t)), k) > before.budgets[k]
      && Load(Apply(before, Commit(t)), k) > Load(before, k);
    var more :| Obedient(more, k) && Run(st, more) == before;
    BudgetStands(st, more, k);
    RunAppend(st, more, Commit(t));
    assert Obedient(more + [Commit(t)], k);
    assert Load(Run(st, more + [Commit(t)]), k) > st.budgets[k];
  }

  lemma {:induction false} BudgetStands(st: State, more: seq<Step>, k: Key)
    requires k in st.budgets && Obedient(more, k)
    ensures k in Run(st, more).budgets && Run(st, more).budgets[k] == st.budgets[k]
    ensures Disciplined(st, more, k)
    decreases |more|
  {
    if more != [] {
      assert Obeys(more[0], k);
      BudgetStep(st, more[0], k);
      hide Apply;
      BudgetStands(Apply(st, more[0]), more[1..], k);
    }
  }

  lemma BudgetStep(st: State, step: Step, k: Key)
    requires k in st.budgets && Obeys(step, k)
    ensures k in Apply(st, step).budgets && Apply(st, step).budgets[k] == st.budgets[k]
  {
  }

  // ---------------------------------------------------------------------------
  // Exactly when a state is safe

  /** The owner of the lock can commit all it has pledged. */
  lemma PledgeIsReached(st: State, k: Key) returns (next: State)
    requires MovesInv(st) && k in st.budgets && (k in st.locks ==> st.locks[k] in st.txns)
    ensures Leads(st, k, next) && Load(next, k) == Pledged(st, k)
  {
    hide Leads, MovesInv, Apply, InFlight, Own;
    if k in st.locks {
      var h := st.locks[k];
      var before := PledgeMoved(st, h, k);
      next := Apply(before, Commit(h));
      LeadsOn(st, k, before, Commit(h), next);
      CommitLoads(before, h, k);
    } else {
      LeadsNowhere(st, k);
      next := st;
    }
  }

  lemma CommitLoads(st: State, t: TxnId, k: Key)
    requires MovesInv(st) && t in st.txns
    ensures Load(Apply(st, Commit(t)), k) == Seen(st, t, k)
  {
    CommitAdds(st, t, k);
  }

  lemma PledgeMoved(st: State, h: TxnId, k: Key) returns (next: State)
    requires MovesInv(st) && h in st.txns
    ensures Leads(st, k, next) && MovesInv(next) && h in next.txns && next.rows == st.rows
    ensures |Own(next.txns[h], k)| == |Own(st.txns[h], k)| + (if PassedOn(st.txns[h], k) then 1 else 0)
  {
    hide Leads;
    LeadsNowhere(st, k);
    next := st;
    if PassedOn(st.txns[h], k) {
      var a := UnusedAssignment(st);
      next := Apply(st, Grant(h, a));
      LeadsOn(st, k, st, Grant(h, a), next);
      MovesStep(st, Grant(h, a));
      OwnAfterMove(st, h, a, k);
    }
  }

  /** In every reachable state: obedient transactions cannot take `k` over its budget exactly when all
      that is in flight or pledged under the lock fits, and nobody without the lock has escaped. */
  lemma SafeExactly(st: State, k: Key)
    requires Reachable(st) && k in st.budgets && k.provider != ""
    ensures Safe(st, k) <==>
      && Pledged(st, k) <= st.budgets[k]
      && forall t | t in st.txns && Escaped(st.txns[t], k) :: k in st.locks && st.locks[k] == t
  {
    hide Reachable, Safe, Pledged, Escaped, MovesInv, LockInv, Solo, Run, Load;
    ReachableInv(st, k);
    LockOwnersAreOpen(st, k);
    SoloExactly(st, k);
    if Pledged(st, k) > st.budgets[k] {
      var next := PledgeIsReached(st, k);
      LeadsToUnsafe(st, k, next);
    } else if Solo(st, k) {
      BoundedIsSafe(st, k);
    } else {
      var t :| t in st.txns && Escaped(st.txns[t], k) && !(k in st.locks && st.locks[k] == t);
      EscapeOverruns(st, t, k);
      OverrunIsUnsafe(st, t, k);
    }
  }

  lemma LockOwnersAreOpen(st: State, k: Key)
    requires LockInv(st, k)
    ensures k in st.locks ==> st.locks[k] in st.txns
  {
  }

  lemma LeadsToUnsafe(st: State, k: Key, next: State)
    requires k in st.budgets && Leads(st, k, next) && Load(next, k) > st.budgets[k]
    ensures !Safe(st, k)
  {
    hide Load, Run, Obedient;
  }

  lemma BoundedIsSafe(st: State, k: Key)
    requires Bounded(st, k)
    ensures Safe(st, k)
  {
    hide MovesInv, Run, Load;
    forall more | Obedient(more, k)
      ensures Load(Run(st, more), k) <= st.budgets[k]
    {
      BoundedRun(st, more, k);
    }
  }

  // ---------------------------------------------------------------------------
  // A dispatch that names no provider

  /** Its whole transaction, uninterrupted. */
  function Dispatched(st: State, t: TxnId, ws: WorkspaceId, a: AssignmentId): State {
    Apply(Apply(Apply(st, SkipCheck(t, ws)), Grant(t, a)), Commit(t))
  }

  lemma DispatchedState(st: State, t: TxnId, ws: WorkspaceId, a: AssignmentId)
    requires t in st.txns && st.txns[t] == Txn(Idle, map[], {})
    requires a !in st.rows && Untouched(st, a)
    ensures Dispatched(st, t, ws, a) ==
      State(st.rows[a := Row(Key(ws, DEFAULT_PROVIDER), true)], st.budgets, LocksWithout(st, t), st.txns - {t})
  {
    var k := Key(ws, DEFAULT_PROVIDER);
    var s1 := st.(txns := st.txns[t := Txn(Passed(k, false), map[], {})]);
    assert Apply(st, SkipCheck(t, ws)) == s1 && Untouched(s1, a);
    var s2 := st.(txns := st.txns[t := Txn(Idle, map[a := k], {a})]);
    UncountedMove(s1, t, a, k);
    DispatchCommits(st, s2, t, a, k);
  }

  lemma DispatchCommits(st: State, open: State, t: TxnId, a: AssignmentId, k: Key)
    requires t in st.txns && open == st.(txns := st.txns[t := Txn(Idle, map[a := k], {a})])
    ensures Apply(open, Commit(t)) == State(st.rows[a := Row(k, true)], st.budgets, LocksWithout(st, t), st.txns - {t})
  {
    assert LocksWithout(open, t) == LocksWithout(st, t);
    hide LocksWithout;
    assert open.txns - {t} == st.txns - {t};
  }

  lemma DispatchPledges(st: State, next: State, t: TxnId, a: AssignmentId, k: Key)
    requires t in st.txns && st.txns[t] == Txn(Idle, map[], {}) && a !in st.rows
    requires next == State(st.rows[a := Row(k, true)], st.budgets, LocksWithout(st, t), st.txns - {t})
    requires k in st.locks ==> st.locks[k] in st.txns
    ensures Load(next, k) == Load(st, k) + 1 && Pledged(next, k) == Pledged(st, k) + 1
  {
    OneMoreInFlight(st.rows, a, k);
    hide InFlight;
    assert Own(st.txns[t], k) == {};
  }

  /** A dispatch that names no provider, committed at once, leaves a state that obedient transactions
      cannot take over the default provider's budget exactly when what is in flight or pledged under the
      lock was below the budget, and nobody else without the lock had escaped. */
  lemma UnnamedDispatchIsSafeExactly(st: State, t: TxnId, ws: WorkspaceId, a: AssignmentId)
    requires Reachable(st) && t in st.txns && st.txns[t] == Txn(Idle, map[], {})
    requires a !in st.rows && Untouched(st, a)
    requires Key(ws, DEFAULT_PROVIDER) in st.budgets
    ensures var k, next := Key(ws, DEFAULT_PROVIDER), Dispatched(st, t, ws, a);
      && Load(next, k) == Load(st, k) + 1
      && (Safe(next, k) <==>
          && Pledged(st, k) < st.budgets[k]
          && forall u | u in st.txns && Escaped(st.txns[u], k) :: k in st.locks && st.locks[k] == u)
  {
    var k, next := Key(ws, DEFAULT_PROVIDER), Dispatched(st, t, ws, a);
    DispatchedState(st, t, ws, a);
    hide Reachable, Safe, Pledged, LockInv, MovesInv, Load, Apply, Dispatched, Escaped, LocksWithout, Untouched;
    EscapesRemain(st, next, t, k);
    ReachableDispatch(st, t, ws, a);
    ReachableInv(st, k);
    LockOwnersAreOpen(st, k);
    DispatchPledges(st, next, t, a, k);
    SafeExactly(next, k);
  }

  lemma EscapesRemain(st: State, next: State, t: TxnId, k: Key)
    requires t in st.txns && st.txns[t] == Txn(Idle, map[], {})
    requires next.locks == LocksWithout(st, t) && next.txns == st.txns - {t}
    ensures (forall u | u in next.txns && Escaped(next.txns[u], k) :: k in next.locks && next.locks[k] == u)
      <==> (forall u | u in st.txns && Escaped(st.txns[u], k) :: k in st.locks && st.locks[k] == u)
  {
    assert !Escaped(st.txns[t], k);
    hide Escaped;
    forall u | u in st.txns && u != t
      ensures u in next.txns && next.txns[u] == st.txns[u]
      ensures k in next.locks && next.locks[k] == u <==> k in st.locks && st.locks[k] == u
    {
    }
  }

  lemma ReachableDispatch(st: State, t: TxnId, ws: WorkspaceId, a: AssignmentId)
    requires Reachable(st)
    ensures Reachable(Dispatched(st, t, ws, a))
  {
    hide Reachable, Apply;
    var s1 := Apply(st, SkipCheck(t, ws));
    var s2 := Apply(s1, Grant(t, a));
    ReachableStep(st, SkipCheck(t, ws), s1);
    ReachableStep(s1, Grant(t, a), s2);
    ReachableStep(s2, Commit(t), Apply(s2, Commit(t)));
  }

  /** While such a move is uncommitted no budget and no amount of room makes the state safe: claims
      through the gate fill the budget, and the commit then overruns it. */
  lemma OpenEscapeIsNeverSafe(st: State, t: TxnId, k: Key)
    requires Reachable(st) && k in st.budgets && k.provider != ""
    requires t in st.txns && Escaped(st.txns[t], k) && !(k in st.locks && st.locks[k] == t)
    ensures !Safe(st, k) && !NeverOverrun(st, k)
  {
    hide Reachable, Escaped, Overruns, MovesInv, LockInv;
    ReachableInv(st, k);
    LockOwnersAreOpen(st, k);
    EscapeOverruns(st, t, k);
    OverrunIsUnsafe(st, t, k);
  }

  // ---------------------------------------------------------------------------
  // A budget created late

  /** Budgets for `k` are created only while nobody is past the missing one. */
  ghost predicate Timely(st: State, steps: seq<Step>, k: Key)
    decreases |steps|
  {
    steps == [] || (
      && (steps[0].SetBudget? && steps[0].k == k && k !in st.budgets ==> AllGated(st, k))
      && Timely(Apply(st, steps[0]), steps[1..], k))
  }

  lemma {:induction false} TimelyIsDisciplined(st: State, steps: seq<Step>, k: Key)
    requires k.provider != DEFAULT_PROVIDER && Timely(st, steps, k)
    ensures Disciplined(st, steps, k)
    decreases |steps|
  {
    hide Apply, AllGated;
    if steps != [] {
      TimelyIsDisciplined(Apply(st, steps[0]), steps[1..], k);
    }
  }

  /** For every provider but the default one, timely budgets are all it takes: any step of any run that
      raises the load leaves it within the budget. */
  lemma OtherProvidersNeedOnlyTimelyBudgets(steps: seq<Step>, step: Step, k: Key)
    requires k.provider != DEFAULT_PROVIDER && Timely(INIT, steps, k)
    ensures var st, next := Run(INIT, steps), Apply(Run(INIT, steps), step);
      k in next.budgets && Load(next, k) > Load(st, k) ==> Load(next, k) <= next.budgets[k]
  {
    TimelyIsDisciplined(INIT, steps, k);
    GrowthStaysWithinBudget(steps, step, k);
  }

  lemma {:induction false} InvNeverOverruns(st: State, k: Key)
    requires Inv(st, k) && k in st.budgets
    ensures NeverOverrun(st, k)
  {
    hide Inv, Load, Apply, Run;
    forall more, step | Obedient(more + [step], k)
      ensures var before, after := Run(st, more), Apply(Run(st, more), step);
        Load(after, k) > Load(before, k) ==> Load(after, k) <= st.budgets[k]
    {
      ObedientFront(more, step, k);
      BudgetStands(st, more, k);
      InvRun(st, more, k);
      BudgetStep(Run(st, more), step, k);
      InvGrowth(Run(st, more), step, k);
    }
  }

  lemma ObedientFront(more: seq<Step>, step: Step, k: Key)
    requires Obedient(more + [step], k)
    ensures Obedient(more, k) && Obeys(step, k)
  {
    assert (more + [step])[|more|] == step;
    assert forall x | x in more :: x in more + [step];
  }

  /** A budget nobody is past the gate of. */
  lemma FreshBudgetInv(st: State, k: Key, max: nat)
    requires LockInv(st, k) && MovesInv(st) && k !in st.budgets && AllGated(st, k)
    ensures Inv(SetBudgetRow(st, k, max), k)
  {
  }

  /** Creating a budget, of whatever size, is followed by an overrun in some obedient continuation unless
      at that moment no open transaction had escaped the missing one: exactly then. */
  lemma LateBudgetIsSafeExactly(st: State, k: Key, max: nat)
    requires Reachable(st) && k !in st.budgets && k.provider != ""
    ensures NeverOverrun(Apply(st, SetBudget(k, max)), k) <==> AllGated(st, k)
  {
    hide Reachable, Escaped, NeverOverrun, MovesInv, Run, Inv, AllGated, Overruns;
    ReachableInv(st, k);
    var next := SetBudgetRow(st, k, max);
    assert k !in st.locks && next == st.(budgets := st.budgets[k := max]);
    GatedMeansNoneEscaped(st, k);
    if AllGated(st, k) {
      FreshBudgetInv(st, k, max);
      InvNeverOverruns(next, k);
    } else {
      var t :| t in st.txns && Escaped(st.txns[t], k);
      MovesStep(st, SetBudget(k, max));
      EscapeOverruns(next, t, k);
      OverrunIsUnsafe(next, t, k);
    }
  }

  // ---------------------------------------------------------------------------
  // Concrete runs

  lemma LoadOfTwo(k: Key)
    ensures |InFlight(map[5 := Row(k, true)], k)| == 1
    ensures |InFlight(map[5 := Row(k, true), 6 := Row(k, true)], k)| == 2
  {
    assert InFlight(map[5 := Row(k, true)], k) == {5};
    assert InFlight(map[5 := Row(k, true), 6 := Row(k, true)], k) == {5, 6};
  }

  /** One assignment in flight under a budget of one, then a dispatch without a provider. */
  lemma UnnamedDispatchOverruns() returns (st: State, next: State)
    ensures Reachable(st) && next == Apply(st, Commit(1))
    ensures var k := Key(0, DEFAULT_PROVIDER);
      k in next.budgets && next.budgets[k] == 1 && Load(st, k) == 1 && Load(next, k) == 2
  {
    hide Reachable, Run;
    var k := Key(0, DEFAULT_PROVIDER);
    ReachableInit();
    var s1 := State(map[], map[k := 1], map[], map[]);
    ReachableStep(INIT, SetBudget(k, 1), s1);
    var s2 := DispatchUnnamed(s1, 0, 5, k);
    var s3 := State(map[5 := Row(k, true)], map[k := 1], map[], map[]);
    ReachableStep(s2, Commit(0), s3);
    st := DispatchUnnamed(s3, 1, 6, k);
    next := State(map[5 := Row(k, true), 6 := Row(k, true)], map[k := 1], map[], map[]);
    assert Apply(st, Commit(1)) == next;
    LoadOfTwo(k);
  }

  lemma UncountedMove(st: State, t: TxnId, a: AssignmentId, k: Key)
    requires t in st.txns && st.txns[t] == Txn(Passed(k, false), map[], {})
    requires a !in st.rows && Untouched(st, a)
    ensures Apply(st, Grant(t, a)) == st.(txns := st.txns[t := Txn(Idle, map[a := k], {a})])
  {
    assert {} + {a} == {a};
  }

  /** A fresh transaction dispatches a new assignment without naming a provider. */
  lemma DispatchUnnamed(st: State, t: TxnId, a: AssignmentId, k: Key) returns (next: State)
    requires Reachable(st) && st.txns == map[] && a !in st.rows && k == Key(0, DEFAULT_PROVIDER)
    ensures Reachable(next) && next == st.(txns := map[t := Txn(Idle, map[a := k], {a})])
  {
    hide Reachable, Run;
    var s1 := st.(txns := map[t := Txn(Idle, map[], {})]);
    ReachableStep(st, Begin(t), s1);
    var s2 := st.(txns := map[t := Txn(Passed(k, false), map[], {})]);
    ReachableStep(s1, SkipCheck(t, 0), s2);
    next := st.(txns := map[t := Txn(Idle, map[a := k], {a})]);
    assert Untouched(s2, a);
    UncountedMove(s2, t, a, k);
    ReachableStep(s2, Grant(t, a), next);
  }

  /** A fresh transaction finds no budget for `k` and moves a new assignment. */
  lemma DispatchUnbudgeted(st: State, t: TxnId, a: AssignmentId, k: Key) returns (next: State)
    requires Reachable(st) && t !in st.txns && k !in st.budgets && k.provider != ""
    requires a !in st.rows && Untouched(st, a)
    ensures Reachable(next) && next == st.(txns := st.txns[t := Txn(Idle, map[a := k], {a})])
  {
    hide Reachable, Run;
    var s1 := st.(txns := st.txns[t := Txn(Idle, map[], {})]);
    ReachableStep(st, Begin(t), s1);
    var s2 := st.(txns := st.txns[t := Txn(Passed(k, false), map[], {})]);
    ReachableStep(s1, LockBudget(t, k), s2);
    next := st.(txns := st.txns[t := Txn(Idle, map[a := k], {a})]);
    assert Untouched(s2, a);
    UncountedMove(s2, t, a, k);
    ReachableStep(s2, Grant(t, a), next);
  }

  /** Two transactions find no budget; it is created before they commit ... */
  lemma LateBudgetRun() returns (st: State)
    ensures Reachable(st)
    ensures var k := Key(0, "tts");
      st == State(map[], map[k := 1], map[], map[0 := Txn(Idle, map[5 := k], {5}), 1 := Txn(Idle, map[6 := k], {6})])
  {
    hide Reachable, Run;
    var k := Key(0, "tts");
    ReachableInit();
    var s1 := DispatchUnbudgeted(INIT, 0, 5, k);
    var s2 := DispatchUnbudgeted(s1, 1, 6, k);
    st := State(map[], map[k := 1], map[], map[0 := Txn(Idle, map[5 := k], {5}), 1 := Txn(Idle, map[6 := k], {6})]);
    ReachableStep(s2, SetBudget(k, 1), st);
  }

  /** ... and the second commit overruns it. */
  lemma LateBudgetIsOverrun() returns (st: State, next: State)
    ensures Reachable(st) && next == Apply(st, Commit(1))
    ensures var k := Key(0, "tts");
      k in next.budgets && next.budgets[k] == 1 && Load(st, k) == 1 && Load(next, k) == 2
  {
    hide Reachable, Run, InFlight, Apply;
    var k := Key(0, "tts");
    var s1 := LateBudgetRun();
    st := State(map[5 := Row(k, true)], map[k := 1], map[], map[1 := Txn(Idle, map[6 := k], {6})]);
    FirstLateCommit(s1, k);
    SecondLateCommit(st, k);
    ReachableStep(s1, Commit(0), st);
    next := State(map[5 := Row(k, true), 6 := Row(k, true)], map[k := 1], map[], map[]);
    LoadOfTwo(k);
  }

  lemma FirstLateCommit(first: State, k: Key)
    requires first == State(map[], map[k := 1], map[],
                            map[0 := Txn(Idle, map[5 := k], {5}), 1 := Txn(Idle, map[6 := k], {6})])
    ensures Apply(first, Commit(0)) ==
      State(map[5 := Row(k, true)], map[k := 1], map[], map[1 := Txn(Idle, map[6 := k], {6})])
  {
  }

  lemma SecondLateCommit(second: State, k: Key)
    requires second == State(map[5 := Row(k, true)], map[k := 1], map[], map[1 := Txn(Idle, map[6 := k], {6})])
    ensures Apply(second, Commit(1)) == State(map[5 := Row(k, true), 6 := Row(k, true)], map[k := 1], map[], map[])
  {
  }

  /** Under a budget of one a claim has counted and moved, uncommitted; another transaction is open ... */
  lemma CountedRun() returns (st: State)
    ensures Reachable(st)
    ensures var k := Key(0, DEFAULT_PROVIDER);
      st == State(map[], map[k := 1], map[k := 0], map[0 := Txn(Idle, map[5 := k], {}), 1 := Txn(Idle, map[], {})])
  {
    hide Reachable, Run, InFlight, Own;
    var k := Key(0, DEFAULT_PROVIDER);
    ReachableInit();
    var s1 := State(map[], map[k := 1], map[], map[]);
    ReachableStep(INIT, SetBudget(k, 1), s1);
    var s2 := s1.(txns := map[0 := Txn(Idle, map[], {})]);
    ReachableStep(s1, Begin(0), s2);
    var s3 := s1.(txns := map[0 := Txn(Counting(k), map[], {})], locks := map[k := 0]);
    ReachableStep(s2, LockBudget(0, k), s3);
    var s4 := s3.(txns := map[0 := Txn(Passed(k, true), map[], {})]);
    assert InFlight(s3.rows, k) == {} by { NothingInFlight(k); }
    CountPasses(s3, 0, k);
    ReachableStep(s3, CountInFlight(0), s4);
    st := CountedMove(s4, k);
  }

  lemma NothingInFlight(k: Key)
    ensures InFlight(map[], k) == {}
  {
  }

  lemma CountedMove(passed: State, k: Key) returns (st: State)
    requires Reachable(passed)
    requires passed == State(map[], map[k := 1], map[k := 0], map[0 := Txn(Passed(k, true), map[], {})])
    ensures Reachable(st)
    ensures st == passed.(txns := map[0 := Txn(Idle, map[5 := k], {}), 1 := Txn(Idle, map[], {})])
  {
    hide Reachable, Run;
    var moved := passed.(txns := map[0 := Txn(Idle, map[5 := k], {})]);
    assert Untouched(passed, 5);
    ReachableStep(passed, Grant(0, 5), moved);
    st := passed.(txns := map[0 := Txn(Idle, map[5 := k], {}), 1 := Txn(Idle, map[], {})]);
    ReachableStep(moved, Begin(1), st);
  }

  /** ... which dispatches without a provider: nothing is in flight yet, it commits within the budget ... */
  lemma CountedThenDispatched() returns (st: State)
    ensures Reachable(st)
    ensures var k := Key(0, DEFAULT_PROVIDER);
      st == State(map[6 := Row(k, true)], map[k := 1], map[k := 0], map[0 := Txn(Idle, map[5 := k], {})])
  {
    hide Reachable, Run, Dispatched, Apply;
    var k := Key(0, DEFAULT_PROVIDER);
    var open := CountedRun();
    st := Dispatched(open, 1, 0, 6);
    ReachableDispatch(open, 1, 0, 6);
    assert Untouched(open, 6);
    DispatchedState(open, 1, 0, 6);
    assert LocksWithout(open, 1) == map[k := 0];
    hide LocksWithout;
    assert open.txns - {1} == map[0 := Txn(Idle, map[5 := k], {})];
  }

  /** ... and it is the claim that counted whose commit overruns it. */
  lemma DispatchPushesACountedCommitOver() returns (st: State, next: State)
    ensures Reachable(st) && next == Apply(st, Commit(0))
    ensures var k := Key(0, DEFAULT_PROVIDER);
      AllGated(st, k) && k in next.budgets && next.budgets[k] == 1 && Load(st, k) == 1 && Load(next, k) == 2
  {
    hide Reachable, Run;
    var k := Key(0, DEFAULT_PROVIDER);
    st := CountedThenDispatched();
    next := Apply(st, Commit(0));
    assert next.rows == map[5 := Row(k, true), 6 := Row(k, true)];
    assert InFlight(st.rows, k) == {6};
    LoadOfTwo(k);
  }
}
