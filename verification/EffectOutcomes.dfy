/** How each server operation ends, and how an assignment ends: when exactly an ack, a submit, a claim, a
    recovery and a cancellation take effect, what they leave alone, and that a recorded result is final. */
module EffectOutcomes {
  import opened Foundations
  import opened WorkerSession
  import opened EffectProtocol
  import opened EffectInvariants
  import opened EffectTheorems

  // ---------------------------------------------------------------------------
  // A recorded result

  function FinishedFor(a: AssignmentId): Entry -> bool { (e: Entry) => e.Finished? && e.aid == a }

  predicate Terminal(row: Row) {
    row.status == Completed || row.status == Failed || row.status == Cancelled
  }

  /** The row a recorded result leaves behind. */
  predicate Ended(st: State, e: Entry)
    requires e.Finished?
  {
    && e.aid in st.rows && e.aid in st.keys
    && (e.success <==> st.rows[e.aid].status == Completed)
    && (!e.success <==> st.rows[e.aid].status == Failed)
    && !st.rows[e.aid].lease
    && st.rows[e.aid].attempt == e.attempt
  }

  ghost predicate EndsInv(st: State) {
    && (forall e | e in st.log && e.Finished? :: Ended(st, e))
    && (forall a :: Count(st.log, FinishedFor(a)) <= 1)
  }

  lemma TerminalStays(st: State, step: Step, a: AssignmentId)
    requires a in st.rows && Terminal(st.rows[a])
    ensures a in Apply(st, step).rows && Apply(st, step).rows[a] == st.rows[a]
  {
  }

  lemma EndsFrame(st: State, step: Step)
    requires EndsInv(st) && !step.ServeSubmit?
    ensures EndsInv(Apply(st, step))
  {
    LogGrows(st, step);
    SessionsKept(st, step);
    var next := Apply(st, step);
    forall e | e in next.log && e.Finished?
      ensures Ended(next, e)
    {
      assert e in st.log;
      TerminalStays(st, step, e.aid);
    }
    hide Apply, Added;
    forall a
      ensures Count(next.log, FinishedFor(a)) <= 1
    {
      CountIgnores(st.log, Added(st, step), FinishedFor(a));
    }
  }

  /** A submit is accepted: what it writes. */
  lemma Accepted(st: State, s: SessionId)
    requires s in st.sessions && st.sessions[s].submit.SubmitSent? && st.sessions[s].aid in st.rows
    requires InFlight(st.rows[st.sessions[s].aid]) && st.rows[st.sessions[s].aid].worker == Some(st.sessions[s].worker)
    requires st.rows[st.sessions[s].aid].lease
    ensures var a, row, ok := st.sessions[s].aid, st.rows[st.sessions[s].aid], st.sessions[s].submit.success;
      var next := Apply(st, ServeSubmit(s));
      && next.log == st.log + Release(row) + [Finished(a, s, row.attempt, ok)]
      && a in next.rows && next.rows[a].status == (if ok then Completed else Failed) && !next.rows[a].lease
      && next.rows[a].attempt == row.attempt && next.rows - {a} == st.rows - {a}
      && next.keys == st.keys + {a}
      && next.sessions == st.sessions[s := st.sessions[s].(submit := SubmitAnswered(ok))]
      && next.calls == st.calls
  {
  }

  /** Exactly when it is accepted, exactly when it replays a recorded end, and otherwise nothing changes. */
  lemma SubmitTakesExactly(st: State, s: SessionId)
    requires s in st.sessions && st.sessions[s].submit.SubmitSent? && st.sessions[s].aid in st.rows
    ensures var session, row := st.sessions[s], st.rows[st.sessions[s].aid];
      var next := Apply(st, ServeSubmit(s));
      && (next.rows != st.rows <==> InFlight(row) && row.worker == Some(session.worker) && row.lease)
      && (next.rows == st.rows && next != st <==>
            session.aid in st.keys && (row.status == Completed || row.status == Failed))
      && (next.rows == st.rows && next != st ==>
            next == st.(sessions := st.sessions[s := session.(submit := SubmitAnswered(session.submit.success))]))
  {
  }

  lemma NotEndedYet(st: State, a: AssignmentId)
    requires EndsInv(st) && a in st.rows && InFlight(st.rows[a])
    ensures Count(st.log, FinishedFor(a)) == 0
  {
    if Count(st.log, FinishedFor(a)) > 0 {
      var e := CountWitness(st.log, FinishedFor(a));
    }
  }

  lemma EndsAccepted(st: State, s: SessionId)
    requires EndsInv(st) && s in st.sessions && st.sessions[s].submit.SubmitSent? && st.sessions[s].aid in st.rows
    requires InFlight(st.rows[st.sessions[s].aid]) && st.rows[st.sessions[s].aid].worker == Some(st.sessions[s].worker)
    requires st.rows[st.sessions[s].aid].lease
    ensures EndsInv(Apply(st, ServeSubmit(s)))
  {
    hide Apply, Count;
    Accepted(st, s);
    var next, a, row := Apply(st, ServeSubmit(s)), st.sessions[s].aid, st.rows[st.sessions[s].aid];
    var last := Finished(a, s, row.attempt, st.sessions[s].submit.success);
    NotEndedYet(st, a);
    forall b
      ensures Count(next.log, FinishedFor(b)) <= 1
    {
      CountIgnores(st.log, Release(row), FinishedFor(b));
      CountAppend(st.log + Release(row), last, FinishedFor(b));
    }
    forall e | e in next.log && e.Finished?
      ensures Ended(next, e)
    {
      if e != last {
        assert e in st.log && e.aid != a;
        assert e.aid in next.rows - {a};
        assert next.rows[e.aid] == (next.rows - {a})[e.aid] == (st.rows - {a})[e.aid];
      }
    }
  }

  lemma EndsStep(st: State, step: Step)
    requires EndsInv(st)
    ensures EndsInv(Apply(st, step))
  {
    hide Apply, EndsInv;
    if !step.ServeSubmit? {
      EndsFrame(st, step);
    } else {
      EndsSubmit(st, step.s);
    }
  }

  lemma EndsSubmit(st: State, s: SessionId)
    requires EndsInv(st)
    ensures EndsInv(Apply(st, ServeSubmit(s)))
  {
    if Submit(st, s).rows != st.rows {
      EndsAccepted(st, s);
    } else {
      SubmitKeepsRows(st, s);
    }
  }

  lemma {:induction false} EndsRun(st: State, steps: seq<Step>)
    requires EndsInv(st)
    ensures EndsInv(Run(st, steps))
    decreases |steps|
  {
    hide Apply, EndsInv;
    if steps != [] {
      EndsStep(st, steps[0]);
      EndsRun(Apply(st, steps[0]), steps[1..]);
    }
  }

  lemma ReachableEnds(st: State)
    requires Reachable(st)
    ensures EndsInv(st)
  {
    var steps :| Run(INIT, steps) == st;
    assert EndsInv(INIT);
    EndsRun(INIT, steps);
  }

  lemma {:induction false} TerminalForever(st: State, a: AssignmentId, more: seq<Step>)
    requires a in st.rows && Terminal(st.rows[a])
    ensures a in Run(st, more).rows && Run(st, more).rows[a] == st.rows[a]
    decreases |more|
  {
    hide Apply;
    if more != [] {
      TerminalStays(st, more[0], a);
      TerminalForever(Apply(st, more[0]), a, more[1..]);
    }
  }

  /** A recorded result decides its assignment: COMPLETED exactly for a success and FAILED exactly for a
      failure, with the lease ended, the key reserved and the submit answered; no other result is ever
      recorded, and nothing that happens afterwards changes the row. */
  lemma ResultIsFinal(st: State, e: Entry, more: seq<Step>)
    requires Reachable(st) && e in st.log && e.Finished?
    ensures Ended(st, e) && Count(st.log, FinishedFor(e.aid)) == 1
    ensures e.session in st.sessions && st.sessions[e.session].submit == SubmitAnswered(e.success)
    ensures var end := Run(st, more);
      e.aid in end.rows && end.rows[e.aid] == st.rows[e.aid] && Count(end.log, FinishedFor(e.aid)) <= 1
  {
    hide Run, Apply, Count;
    ReachableInv(st);
    ReachableEnds(st);
    CountMember(st.log, FinishedFor(e.aid), e);
    TerminalForever(st, e.aid, more);
    EndsRun(st, more);
  }

  // ---------------------------------------------------------------------------
  // Sessions that end normally

  /** A session that ended normally had its submit answered, and an answered submit means a recorded end. */
  predicate Answered(st: State, session: Session) {
    && (session.pc == Done ==> session.submit.SubmitAnswered?)
    && (session.submit.SubmitAnswered? ==>
          && session.aid in st.rows && session.aid in st.keys
          && (st.rows[session.aid].status == Completed || st.rows[session.aid].status == Failed))
  }

  ghost predicate AnsweredInv(st: State) {
    forall s | s in st.sessions :: Answered(st, st.sessions[s])
  }

  lemma AnsweredStep(st: State, step: Step)
    requires AnsweredInv(st)
    ensures AnsweredInv(Apply(st, step))
  {
    var next := Apply(st, step);
    forall s | s in next.sessions
      ensures Answered(next, next.sessions[s])
    {
      if s in st.sessions {
        AnsweredStays(st, step, st.sessions[s]);
        if step.Client? && step.s == s {
          AnsweredClient(st, s, step.ev);
        } else if step == ServeSubmit(s) {
          AnsweredSubmit(st, s);
        }
      }
    }
  }

  lemma AnsweredStays(st: State, step: Step, session: Session)
    requires Answered(st, session)
    ensures Answered(Apply(st, step), session)
  {
    hide Apply;
    KeysStay(st, step);
    if session.submit.SubmitAnswered? {
      TerminalStays(st, step, session.aid);
    }
  }

  lemma KeysStay(st: State, step: Step)
    ensures st.keys <= Apply(st, step).keys
  {
  }

  lemma AnsweredClient(st: State, s: SessionId, ev: Event)
    requires s in st.sessions && Answered(st, st.sessions[s])
    ensures var next := Apply(st, Client(s, ev)); s in next.sessions && Answered(next, next.sessions[s])
  {
  }

  lemma AnsweredSubmit(st: State, s: SessionId)
    requires s in st.sessions && Answered(st, st.sessions[s])
    ensures var next := Apply(st, ServeSubmit(s)); s in next.sessions && Answered(next, next.sessions[s])
  {
  }

  lemma {:induction false} AnsweredRun(st: State, steps: seq<Step>)
    requires AnsweredInv(st)
    ensures AnsweredInv(Run(st, steps))
    decreases |steps|
  {
    hide Apply, AnsweredInv;
    if steps != [] {
      AnsweredStep(st, steps[0]);
      AnsweredRun(Apply(st, steps[0]), steps[1..]);
    }
  }

  /** A session ends normally only over an assignment whose end is recorded: in every reachable state its submit
      was answered, its key is reserved, and its row is COMPLETED or FAILED, now and ever after. */
  lemma NormalEndIsRecorded(st: State, s: SessionId, more: seq<Step>)
    requires Reachable(st) && s in st.sessions && st.sessions[s].pc == Done
    ensures var session := st.sessions[s];
      && session.submit.SubmitAnswered? && session.aid in st.rows && session.aid in st.keys
      && (st.rows[session.aid].status == Completed || st.rows[session.aid].status == Failed)
      && session.aid in Run(st, more).rows && Run(st, more).rows[session.aid] == st.rows[session.aid]
  {
    hide Run, Apply;
    var steps :| Run(INIT, steps) == st;
    assert AnsweredInv(INIT);
    AnsweredRun(INIT, steps);
    TerminalForever(st, st.sessions[s].aid, more);
  }

  // ---------------------------------------------------------------------------
  // The other server operations, exactly

  /** An ack takes effect exactly for a DISPATCHED row of the session's own worker under a live lease. It
      then moves that row to ACKNOWLEDGED, reserves the key and tells whether it was free. */
  lemma AckTakesExactly(st: State, s: SessionId)
    requires s in st.sessions && st.sessions[s].ack == AckSent && st.sessions[s].aid in st.rows
    ensures var session, a := st.sessions[s], st.sessions[s].aid;
      var row, next := st.rows[a], Apply(st, ServeAck(s));
      if row.status == Dispatched && row.worker == Some(session.worker) && row.lease then
        && a in next.rows && next.rows[a] == row.(status := Acknowledged) && next.rows - {a} == st.rows - {a}
        && next.keys == st.keys + {a}
        && s in next.sessions && next.sessions[s].ack == AckAnswered(a !in st.keys)
        && next.sessions[s] == session.(ack := next.sessions[s].ack) && next.sessions - {s} == st.sessions - {s}
        && next.calls == st.calls
      else next == st
  {
  }

  /** Recovery takes effect exactly on rows in flight. It queues the row for its next attempt exactly when
      that attempt is within the maximum and fails it otherwise; either way worker, token and lease are gone. */
  lemma RecoveryTakesExactly(st: State, a: AssignmentId, maxAttempts: nat)
    requires a in st.rows
    ensures var row, next := st.rows[a], Apply(st, Recover(a, maxAttempts));
      if InFlight(row) then
        && a in next.rows && next.rows - {a} == st.rows - {a}
        && (next.rows[a].status == Pending <==> row.attempt < maxAttempts)
        && (next.rows[a].status == Failed <==> row.attempt >= maxAttempts)
        && next.rows[a].attempt == (if row.attempt < maxAttempts then row.attempt + 1 else row.attempt)
        && next.rows[a].firstAttempt == row.firstAttempt
        && next.rows[a].worker == None && next.rows[a].token == None && !next.rows[a].lease
        && next.keys == st.keys && next.calls == st.calls && next.sessions == st.sessions
      else next == st
  {
  }

  /** A cancellation takes effect exactly on rows that have not ended. */
  lemma CancelTakesExactly(st: State, a: AssignmentId)
    requires a in st.rows
    ensures var next := Apply(st, Cancel(a));
      if Terminal(st.rows[a]) then next == st
      else
        && a in next.rows && next.rows[a] == st.rows[a].(status := Cancelled) && next.rows - {a} == st.rows - {a}
        && next.keys == st.keys && next.calls == st.calls && next.sessions == st.sessions
  {
  }

  /** A lease ends by lapsing exactly where a row is in flight, and nothing else changes. */
  lemma LapseTakesExactly(st: State, a: AssignmentId)
    requires a in st.rows
    ensures var next := Apply(st, Lapse(a));
      && a in next.rows && next.rows[a] == st.rows[a].(lease := st.rows[a].lease && !InFlight(st.rows[a]))
      && next.rows - {a} == st.rows - {a}
      && next == st.(rows := next.rows)
  {
  }

  /** A claim request that is still unprocessed starts a row exactly when nothing is DISPATCHED under its
      token and the row is PENDING; it replays the row that is. Granted or replayed, the reply carries the
      row's attempt and one request is spent. */
  lemma ClaimTakesExactly(st: State, c: CallId, a: AssignmentId)
    requires c in st.calls && st.calls[c].served < st.calls[c].sent && a in st.rows
    ensures var call, row, next := st.calls[c], st.rows[a], Apply(st, ServeClaim(c, Some(a)));
      if Holds(row, c, call.worker) || (row.status == Pending && !Held(st, c, call.worker)) then
        && a in next.rows && next.rows - {a} == st.rows - {a}
        && next.rows[a].status == Dispatched && next.rows[a].worker == Some(call.worker)
        && next.rows[a].token == Some(c) && next.rows[a].attempt == row.attempt
        && (row.status == Pending ==> next.rows[a].lease)
        && (row.status != Pending ==> next.rows[a] == row)
        && c in next.calls && next.calls - {c} == st.calls - {c}
        && next.calls[c] == call.(served := call.served + 1, replies := call.replies + {(a, row.attempt)})
        && next.sessions == st.sessions && next.keys == st.keys
      else next == st
  {
    assert Holds(st.rows[a], c, st.calls[c].worker) ==> Held(st, c, st.calls[c].worker);
  }

  /** A request that finds no row is answered exactly when nothing is held under its token. */
  lemma EmptyClaimTakesExactly(st: State, c: CallId)
    requires c in st.calls && st.calls[c].served < st.calls[c].sent
    ensures var call, next := st.calls[c], Apply(st, ServeClaim(c, None));
      next == if Held(st, c, call.worker) then st else st.(calls := st.calls[c := call.(served := call.served + 1)])
  {
  }

  /** A new row is PENDING without a worker, DISPATCHED under a live lease with one, and its start is
      logged exactly then; an existing row is left alone. */
  lemma CreateTakesExactly(st: State, a: AssignmentId, attempt: nat, assignee: Option<WorkerId>)
    ensures var next := Apply(st, Create(a, attempt, assignee));
      if a in st.rows then next == st
      else
        && a in next.rows && next.rows - {a} == st.rows
        && next.rows[a].attempt == next.rows[a].firstAttempt == attempt && next.rows[a].token == None
        && next.rows[a].worker == assignee
        && (next.rows[a].status == (if assignee == None then Pending else Dispatched))
        && (next.rows[a].lease <==> assignee != None)
        && (next.log == if assignee == None then st.log else st.log + [Started(a, assignee.value, None, attempt)])
        && next.keys == st.keys && next.calls == st.calls && next.sessions == st.sessions
  {
  }

  /** A call is retried exactly while it is open and below its three requests, and returns a reply once. */
  lemma CallTakesExactly(st: State, c: CallId, a: AssignmentId, attempt: nat, s: SessionId)
    requires c in st.calls && s !in st.sessions
    ensures Apply(st, RetryClaim(c)) != st <==> st.calls[c].open && st.calls[c].sent < 3
    ensures var next := Apply(st, ReceiveGrant(c, a, attempt, s));
      (next != st <==> st.calls[c].open && (a, attempt) in st.calls[c].replies)
      && (next != st ==> next == st.(
            calls := st.calls[c := st.calls[c].(open := false)],
            sessions := st.sessions[s := Session(st.calls[c].worker, a, attempt, Acking, AckSent, NoSubmit)]))
    ensures !Apply(st, CloseCall(c)).calls[c].open
  {
  }

  // ---------------------------------------------------------------------------
  // Runs

  /** The executor reports a failure: the assignment ends FAILED under the attempt that ran it. */
  lemma FailingRun() returns (st: State)
    ensures Reachable(st)
    ensures 1 in st.rows && st.rows[1].status == Failed && !st.rows[1].lease
    ensures Finished(1, 5, 1, false) in st.log && Count(st.log, BegunFor(1)) == 1
  {
    hide Reachable, Run;
    var s1 := RenewedRun();
    var s2 := s1.(sessions := map[5 := Session(7, 1, 1, Submitting(false), AckAnswered(true), SubmitSent(false))],
                  log := s1.log + [Ran(1, 5, false)]);
    Reach(s1, Client(5, Executed(false)), s2);
    st := Submit(s2, 5);
    Reach(s2, ServeSubmit(5), st);
    Accepted(s2, 5);
    assert st.log[|st.log| - 1] == Finished(1, 5, 1, false);
    assert Begun(1, 5) in st.log;
    CountMember(st.log, BegunFor(1), Begun(1, 5));
    AtMostOnceExecution(st, 1);
  }

  /** An assignment at attempt `n`, waiting, after `n - 1` starts. */
  ghost predicate Waiting(st: State, n: nat) {
    && 1 in st.rows && st.rows[1].status == Pending && st.rows[1].attempt == n && st.rows[1].firstAttempt == 1
    && n >= 1 && Count(st.log, StartOf(1)) == n - 1
    && (forall c | c in st.calls :: c < n)
    && (forall a | a in st.rows :: a == 1)
  }

  lemma OneMoreStart(st: State, n: nat) returns (steps: seq<Step>, next: State)
    requires 1 in st.rows && st.rows[1].status == Pending && (forall a | a in st.rows :: a == 1)
    requires n !in st.calls
    ensures steps == [OpenCall(n, 7), ServeClaim(n, Some(1))] && next == Run(st, steps)
    ensures next.rows == map[1 := st.rows[1].(status := Dispatched, worker := Some(7), token := Some(n), lease := true)]
    ensures next.log == st.log + [Started(1, 7, Some(n), st.rows[1].attempt)]
    ensures next.calls.Keys == st.calls.Keys + {n}
  {
    steps := [OpenCall(n, 7), ServeClaim(n, Some(1))];
    next := Run(st, steps);
    var called := Apply(st, OpenCall(n, 7));
    RunConcat(st, [OpenCall(n, 7)], [ServeClaim(n, Some(1))]);
    RunOne(st, OpenCall(n, 7));
    RunOne(called, ServeClaim(n, Some(1)));
    assert !Held(called, n, 7);
    assert next == Apply(called, ServeClaim(n, Some(1)));
    assert next.rows == map[1 := next.rows[1]];
  }

  lemma RunConcat(st: State, xs: seq<Step>, ys: seq<Step>)
    ensures Run(st, xs + ys) == Run(Run(st, xs), ys)
    decreases |xs|
  {
    hide Apply;
    if xs == [] {
      assert xs + ys == ys;
    } else {
      assert (xs + ys)[1..] == xs[1..] + ys;
      RunConcat(Apply(st, xs[0]), xs[1..], ys);
    }
  }

  /** Granted and recovered once more. */
  lemma WaitsAgain(st: State, n: nat, most: nat) returns (steps: seq<Step>)
    requires Waiting(st, n) && n < most
    ensures Waiting(Run(st, steps), n + 1) && ResolvesAtMost(steps, 1, most)
  {
    hide Run, Count;
    var granted, next := OneMoreStart(st, n);
    steps := granted + [Recover(1, most)];
    RunConcat(st, granted, [Recover(1, most)]);
    RunOne(next, Recover(1, most));
    var e := Started(1, 7, Some(n), st.rows[1].attempt);
    CountAppend(st.log, e, StartOf(1));
    CountAppend(next.log, Unheld(n), StartOf(1));
    RecoveryTakesExactly(next, 1, most);
  }

  lemma RunOne(st: State, step: Step)
    ensures Run(st, [step]) == Apply(st, step)
  {
    hide Apply;
    assert [step][1..] == [];
  }

  lemma {:induction false} WaitingRun(n: nat, most: nat) returns (steps: seq<Step>)
    requires 1 <= n <= most
    ensures Waiting(Run(INIT, steps), n) && ResolvesAtMost(steps, 1, most)
  {
    hide Run, Waiting;
    if n == 1 {
      steps := [Create(1, 1, None)];
      RunOne(INIT, Create(1, 1, None));
      FirstWaits();
    } else {
      var before := WaitingRun(n - 1, most);
      var more := WaitsAgain(Run(INIT, before), n - 1, most);
      RunConcat(INIT, before, more);
      steps := before + more;
    }
  }

  lemma FirstWaits()
    ensures Waiting(Apply(INIT, Create(1, 1, None)), 1)
  {
  }

  /** The bound on starts is reached: for every maximum a run starts its assignment exactly so often. */
  lemma StartsReachTheBound(most: nat) returns (steps: seq<Step>)
    requires most >= 1
    ensures ResolvesAtMost(steps, 1, most) && Count(Run(INIT, steps).log, StartOf(1)) == most
  {
    hide Run, Count;
    var before := WaitingRun(most, most);
    var more, next := OneMoreStart(Run(INIT, before), most);
    RunConcat(INIT, before, more);
    steps := before + more;
    CountAppend(Run(INIT, before).log, Started(1, 7, Some(most), Run(INIT, before).rows[1].attempt), StartOf(1));
  }
}
