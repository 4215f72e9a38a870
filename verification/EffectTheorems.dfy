/** What holds in every state some run of the protocol reaches, and runs that show where
    the protocol promises less than its documentation. */
module EffectTheorems {
  import opened Foundations
  import opened WorkerSession
  import opened EffectProtocol
  import opened EffectInvariants

  /** Some run of the protocol ends in `st`. */
  ghost predicate Reachable(st: State) {
    exists steps :: Run(INIT, steps) == st
  }

  lemma ReachableInv(st: State)
    requires Reachable(st)
    ensures Inv(st)
  {
    hide Inv;
    var steps :| Run(INIT, steps) == st;
    InitInv();
    InvRun(INIT, steps);
  }

  lemma {:induction false} RunAppend(st: State, steps: seq<Step>, step: Step)
    ensures Run(st, steps + [step]) == Apply(Run(st, steps), step)
    decreases |steps|
  {
    if steps == [] {
      assert ([step])[1..] == [];
      assert steps + [step] == [step];
      assert Run(st, [step]) == Run(Apply(st, step), []);
    } else {
      assert (steps + [step])[1..] == steps[1..] + [step];
      RunAppend(Apply(st, steps[0]), steps[1..], step);
    }
  }

  lemma ReachableStep(st: State, step: Step)
    requires Reachable(st)
    ensures Reachable(Apply(st, step))
  {
    var steps :| Run(INIT, steps) == st;
    RunAppend(INIT, steps, step);
  }

  /** In every run the executor is started at most once per assignment, whether or not it comes back;
      every start and every return belongs to one session. */
  lemma AtMostOnceExecution(st: State, a: AssignmentId)
    requires Reachable(st)
    ensures Count(st.log, BegunFor(a)) <= 1 && Count(st.log, RanFor(a)) <= 1
    ensures forall s, t | Begun(a, s) in st.log && Begun(a, t) in st.log :: s == t
    ensures forall s, x | Ran(a, s, x) in st.log :: Begun(a, s) in st.log
  {
    ReachableInv(st);
    forall s, t | Begun(a, s) in st.log && Begun(a, t) in st.log
      ensures s == t
    {
      if s != t {
        CountTwo(st.log, BegunFor(a), Begun(a, s), Begun(a, t));
      }
    }
  }

  /** A success is only ever sent by the session that executed, and an assignment is
      COMPLETED only by the submit of the one session that was ever started on its executor
      and got it back once. */
  lemma SuccessComesFromTheExecutor(st: State)
    requires Reachable(st)
    ensures forall s | s in st.sessions && SendsSuccess(st.sessions[s]) :: Ran(st.sessions[s].aid, s, true) in st.log
    ensures forall a | a in st.rows && st.rows[a].status == Completed ::
      Count(st.log, BegunFor(a)) == 1 && Count(st.log, RanFor(a)) == 1
      && exists s, attempt ::
        Finished(a, s, attempt, true) in st.log && Ran(a, s, true) in st.log && Begun(a, s) in st.log
  {
    ReachableInv(st);
    forall a | a in st.rows && st.rows[a].status == Completed
      ensures Count(st.log, BegunFor(a)) == 1 && Count(st.log, RanFor(a)) == 1
      ensures exists s, attempt ::
        Finished(a, s, attempt, true) in st.log && Ran(a, s, true) in st.log && Begun(a, s) in st.log
    {
      var s, attempt :| Finished(a, s, attempt, true) in st.log;
      assert Ran(a, s, true) in st.log && Begun(a, s) in st.log;
      CountMember(st.log, RanFor(a), Ran(a, s, true));
      CountMember(st.log, BegunFor(a), Begun(a, s));
    }
  }

  /** The session that won the key died without sending a submit. */
  predicate Stranded(st: State, s: SessionId) {
    s in st.sessions && Won(st.sessions[s]) && st.sessions[s].pc == Dead && st.sessions[s].submit.NoSubmit?
  }

  /** The executor of `a` is neither started again nor heard of again. */
  ghost predicate NoMoreExecution(st: State, next: State, a: AssignmentId) {
    && Count(next.log, BegunFor(a)) == Count(st.log, BegunFor(a))
    && Count(next.log, RanFor(a)) == Count(st.log, RanFor(a))
  }

  lemma StrandedStep(st: State, step: Step, s: SessionId)
    requires KeysInv(st) && Stranded(st, s)
    ensures Stranded(Apply(st, step), s)
    ensures NoMoreExecution(st, Apply(st, step), st.sessions[s].aid)
  {
    hide KeysInv, Apply, Added, Count;
    if step.Client? {
      StrandedClient(st, step.s, step.ev, s);
    } else {
      LogGrows(st, step);
      SessionsKept(st, step);
      CountIgnores(st.log, Added(st, step), BegunFor(st.sessions[s].aid));
      CountIgnores(st.log, Added(st, step), RanFor(st.sessions[s].aid));
    }
  }

  /** A dead session makes no more moves, and no other session can reach the executor. */
  lemma StrandedClient(st: State, t: SessionId, ev: Event, s: SessionId)
    requires KeysInv(st) && Stranded(st, s)
    ensures Stranded(Apply(st, Client(t, ev)), s)
    ensures NoMoreExecution(st, Apply(st, Client(t, ev)), st.sessions[s].aid)
  {
    hide Count;
    if t in st.sessions && ClientMay(st.sessions[t], ev) {
      BegunCounts(st, t, ev, st.sessions[s].aid);
      RanCounts(st, t, ev, st.sessions[s].aid);
    }
  }

  lemma {:induction false} StrandedRun(st: State, s: SessionId, more: seq<Step>)
    requires Inv(st) && Stranded(st, s)
    ensures Inv(Run(st, more)) && Stranded(Run(st, more), s)
    ensures Run(st, more).sessions[s].aid == st.sessions[s].aid
    ensures NoMoreExecution(st, Run(st, more), st.sessions[s].aid)
    decreases |more|
  {
    if more != [] {
      InvStep(st, more[0]);
      SessionsKept(st, more[0]);
      StrandedStep(st, more[0], s);
      StrandedRun(Apply(st, more[0]), s, more[1..]);
    }
  }

  /** Once the winner of the key is dead without a submit, wherever it died, nothing that happens
      afterwards starts the assignment's executor again, sends a success for it, or completes it. */
  lemma DeadWinnerBlocksTheAssignment(st: State, s: SessionId, more: seq<Step>)
    requires Reachable(st) && Stranded(st, s)
    ensures var a, end := st.sessions[s].aid, Run(st, more);
      && NoMoreExecution(st, end, a)
      && (forall t | t in end.sessions && end.sessions[t].aid == a :: !SendsSuccess(end.sessions[t]))
      && (a in end.rows ==> end.rows[a].status != Completed)
  {
    ReachableInv(st);
    StrandedRun(st, s, more);
    StrandedNeverSucceeds(Run(st, more), s);
  }

  lemma StrandedNeverSucceeds(st: State, s: SessionId)
    requires Inv(st) && Stranded(st, s)
    ensures forall t | t in st.sessions && st.sessions[t].aid == st.sessions[s].aid :: !SendsSuccess(st.sessions[t])
    ensures st.sessions[s].aid in st.rows ==> st.rows[st.sessions[s].aid].status != Completed
  {
  }

  /** No recovery of `a` resolves a maximum above `most`. */
  predicate ResolvesAtMost(steps: seq<Step>, a: AssignmentId, most: nat) {
    forall step | step in steps && step.Recover? && step.a == a :: step.maxAttempts <= most
  }

  lemma PermittedStep(st: State, step: Step, a: AssignmentId, most: nat)
    requires a in st.rows ==> st.rows[a].permitted <= most
    requires step.Recover? && step.a == a ==> step.maxAttempts <= most
    ensures a in Apply(st, step).rows ==> Apply(st, step).rows[a].permitted <= most
  {
  }

  lemma {:induction false} PermittedRun(st: State, steps: seq<Step>, a: AssignmentId, most: nat)
    requires ResolvesAtMost(steps, a, most) && (a in st.rows ==> st.rows[a].permitted <= most)
    ensures a in Run(st, steps).rows ==> Run(st, steps).rows[a].permitted <= most
    decreases |steps|
  {
    hide Apply;
    if steps != [] {
      PermittedStep(st, steps[0], a, most);
      PermittedRun(Apply(st, steps[0]), steps[1..], a, most);
    }
  }

  /** Each attempt is started at most once, and the maximum, however often it changes between
      recoveries, bounds the starts by the largest value one of them resolved. */
  lemma StartsAreBounded(steps: seq<Step>, a: AssignmentId, most: nat)
    requires a in Run(INIT, steps).rows && ResolvesAtMost(steps, a, most)
    ensures var st := Run(INIT, steps);
      var row := st.rows[a];
      && Count(st.log, StartOf(a)) <= row.attempt - row.firstAttempt + 1
      && row.attempt <= Larger(row.firstAttempt, most)
      && Count(st.log, StartOf(a)) <= Larger(row.firstAttempt, most) - row.firstAttempt + 1
  {
    hide Run, Apply, Count, ResolvesAtMost;
    ReachableInv(Run(INIT, steps));
    PermittedRun(INIT, steps, a, most);
  }

  /** One claim_next call sends at most three requests. It takes a second row only after a
      row granted to it has left DISPATCHED: grants and releases differ by the row held. */
  lemma ClaimTakesOneRowUnlessReleased(st: State, c: CallId)
    requires Reachable(st) && c in st.calls
    ensures var call, grants, released := st.calls[c], Count(st.log, StartVia(c)), Count(st.log, UnheldBy(c));
      && call.sent <= CLAIM_NETWORK_RETRY_ATTEMPTS
      && grants <= call.served <= call.sent
      && grants == released + (if Held(st, c, call.worker) then 1 else 0)
      && (released == 0 ==> grants <= 1)
    ensures forall a, b | a in st.rows && b in st.rows
      && Holds(st.rows[a], c, st.calls[c].worker) && Holds(st.rows[b], c, st.calls[c].worker) :: a == b
  {
    ReachableInv(st);
  }

  /** A call that returns an assignment returns one the server granted for its token, and
      sends nothing more. */
  lemma ReturnedAssignmentWasGranted(st: State, c: CallId, a: AssignmentId, attempt: nat, s: SessionId)
    requires Reachable(st) && Receive(st, c, a, attempt, s) != st
    ensures Started(a, st.calls[c].worker, Some(c), attempt) in st.log
    ensures ResendClaim(Receive(st, c, a, attempt, s), c) == Receive(st, c, a, attempt, s)
  {
    ReachableInv(st);
    assert Started((a, attempt).0, st.calls[c].worker, Some(c), (a, attempt).1) in st.log;
  }

  /** A result is recorded under the attempt its session was granted, unless the same worker
      was started twice on the assignment. */
  lemma ResultMatchesAttempt(st: State, e: Entry)
    requires Reachable(st) && e in st.log && e.Finished?
    ensures e.session in st.sessions
    ensures Count(st.log, StartBy(e.aid, st.sessions[e.session].worker)) <= 1 ==> st.sessions[e.session].attempt == e.attempt
  {
    ReachableInv(st);
  }

  /** What processing a submit records under another attempt than the session's own, it records exactly
      when the row is in flight for the session's worker, under a live lease and that other attempt. */
  lemma SubmitMissesItsAttemptExactly(st: State, s: SessionId)
    requires s in st.sessions && st.sessions[s].submit.SubmitSent? && st.sessions[s].aid in st.rows
    ensures var session, row := st.sessions[s], st.rows[st.sessions[s].aid];
      (exists attempt | attempt != session.attempt ::
         Finished(session.aid, s, attempt, session.submit.success) in Submit(st, s).log[|st.log|..])
      <==> InFlight(row) && row.worker == Some(session.worker) && row.lease && row.attempt != session.attempt
  {
    var session, row := st.sessions[s], st.rows[st.sessions[s].aid];
    if InFlight(row) && row.worker == Some(session.worker) && row.lease {
      var entry := Finished(session.aid, s, row.attempt, session.submit.success);
      var added := Release(row) + [entry];
      assert Submit(st, s).log == st.log + added;
      assert Submit(st, s).log[|st.log|..] == added;
      assert added[|added| - 1] == entry;
    } else {
      assert Submit(st, s).log[|st.log|..] == [];
    }
  }

  // ---------------------------------------------------------------------------
  // Runs that show the claims are neither empty nor stronger than the code

  lemma ReachableInit()
    ensures Reachable(INIT)
  {
    assert Run(INIT, []) == INIT;
  }

  lemma Reach(st: State, step: Step, next: State)
    requires Reachable(st) && Apply(st, step) == next
    ensures Reachable(next)
  {
    ReachableStep(st, step);
  }

  /** Worker 7 sends two requests in call 3; one of them is granted assignment 1. */
  lemma GrantedRun() returns (st: State)
    ensures Reachable(st)
    ensures st == State(
      map[1 := Row(Dispatched, 1, 1, 0, Some(7), Some(3), true)], {},
      map[3 := Call(7, 2, 1, true, {(1, 1)})], map[], [Started(1, 7, Some(3), 1)])
  {
    hide Reachable, Run;
    ReachableInit();
    var s1 := INIT.(rows := map[1 := Row(Pending, 1, 1, 0, None, None, false)]);
    Reach(INIT, Create(1, 1, None), s1);
    var s2 := s1.(calls := map[3 := Call(7, 1, 0, true, {})]);
    Reach(s1, OpenCall(3, 7), s2);
    var s3 := s1.(calls := map[3 := Call(7, 2, 0, true, {})]);
    Reach(s2, RetryClaim(3), s3);
    st := State(
      map[1 := Row(Dispatched, 1, 1, 0, Some(7), Some(3), true)], {},
      map[3 := Call(7, 2, 1, true, {(1, 1)})], map[], [Started(1, 7, Some(3), 1)]);
    assert s3.calls[3].replies + {(1, 1)} == {(1, 1)};
    GrantPending(s3, 3, 1, st);
  }

  lemma GrantPending(st: State, c: CallId, a: AssignmentId, next: State)
    requires Reachable(st) && c in st.calls && a in st.rows && st.rows[a].status == Pending
    requires st.calls[c].served < st.calls[c].sent && !Held(st, c, st.calls[c].worker)
    requires next.rows == st.rows[a := st.rows[a].(status := Dispatched, worker := Some(st.calls[c].worker), token := Some(c), lease := true)]
    requires next.calls == st.calls[c := st.calls[c].(served := st.calls[c].served + 1,
                                                      replies := st.calls[c].replies + {(a, st.rows[a].attempt)})]
    requires next.log == st.log + [Started(a, st.calls[c].worker, Some(c), st.rows[a].attempt)]
    requires next.keys == st.keys && next.sessions == st.sessions
    ensures Reachable(next)
  {
    Reach(st, ServeClaim(c, Some(a)), next);
  }

  /** ... which becomes session 5, whose ack the server answers with a fresh key. */
  lemma AcknowledgedRun() returns (st: State)
    ensures Reachable(st)
    ensures st == State(
      map[1 := Row(Acknowledged, 1, 1, 0, Some(7), Some(3), true)], {1},
      map[3 := Call(7, 2, 1, false, {(1, 1)})],
      map[5 := Session(7, 1, 1, Acking, AckAnswered(true), NoSubmit)],
      [Started(1, 7, Some(3), 1), Unheld(3)])
  {
    hide Reachable, Run;
    var s1 := GrantedRun();
    var s2 := s1.(calls := map[3 := Call(7, 2, 1, false, {(1, 1)})],
                  sessions := map[5 := Session(7, 1, 1, Acking, AckSent, NoSubmit)]);
    Reach(s1, ReceiveGrant(3, 1, 1, 5), s2);
    st := State(
      map[1 := Row(Acknowledged, 1, 1, 0, Some(7), Some(3), true)], {1}, s2.calls,
      map[5 := Session(7, 1, 1, Acking, AckAnswered(true), NoSubmit)],
      [Started(1, 7, Some(3), 1), Unheld(3)]);
    Reach(s2, ServeAck(5), st);
  }

  /** ... then renews its lease and starts its executor ... */
  lemma RenewedRun() returns (st: State)
    ensures Reachable(st)
    ensures st == State(
      map[1 := Row(Acknowledged, 1, 1, 0, Some(7), Some(3), true)], {1},
      map[3 := Call(7, 2, 1, false, {(1, 1)})],
      map[5 := Session(7, 1, 1, Executing, AckAnswered(true), NoSubmit)],
      [Started(1, 7, Some(3), 1), Unheld(3), Begun(1, 5)])
  {
    hide Reachable, Run;
    var s1 := AcknowledgedRun();
    var s2 := s1.(sessions := map[5 := Session(7, 1, 1, Renewing, AckAnswered(true), NoSubmit)]);
    Reach(s1, Client(5, Acked(Some(true))), s2);
    st := s1.(sessions := map[5 := Session(7, 1, 1, Executing, AckAnswered(true), NoSubmit)],
              log := s1.log + [Begun(1, 5)]);
    Reach(s2, Client(5, Renewed), st);
  }

  /** ... and dies inside it: started once, never back, and stranded. */
  lemma DiesInsideTheExecutor() returns (st: State)
    ensures Reachable(st) && Stranded(st, 5) && st.sessions[5].aid == 1
    ensures Count(st.log, BegunFor(1)) == 1 && Count(st.log, RanFor(1)) == 0
  {
    hide Reachable, Run;
    var s1 := RenewedRun();
    st := s1.(sessions := map[5 := Session(7, 1, 1, Dead, AckAnswered(true), NoSubmit)]);
    Reach(s1, Client(5, Faulted), st);
    CountMember(st.log, BegunFor(1), Begun(1, 5));
    AtMostOnceExecution(st, 1);
    NeverBack(st.log);
  }

  lemma NeverBack(log: seq<Entry>)
    requires log == [Started(1, 7, Some(3), 1), Unheld(3), Begun(1, 5)]
    ensures Count(log, RanFor(1)) == 0
  {
    assert [] + log == log;
    CountIgnores([], log, RanFor(1));
  }

  /** ... or executes successfully; its submit is on the way. */
  lemma ExecutedRun() returns (st: State)
    ensures Reachable(st)
    ensures st == State(
      map[1 := Row(Acknowledged, 1, 1, 0, Some(7), Some(3), true)], {1},
      map[3 := Call(7, 2, 1, false, {(1, 1)})],
      map[5 := Session(7, 1, 1, Submitting(true), AckAnswered(true), SubmitSent(true))],
      [Started(1, 7, Some(3), 1), Unheld(3), Begun(1, 5), Ran(1, 5, true)])
  {
    hide Reachable, Run;
    var s1 := RenewedRun();
    st := s1.(sessions := map[5 := Session(7, 1, 1, Submitting(true), AckAnswered(true), SubmitSent(true))],
              log := s1.log + [Ran(1, 5, true)]);
    Reach(s1, Client(5, Executed(true)), st);
  }

  /** The ordinary run ends COMPLETED with one start of the executor, which came back. */
  lemma CompletingRun() returns (st: State)
    ensures Reachable(st)
    ensures 1 in st.rows && st.rows[1].status == Completed
    ensures Count(st.log, BegunFor(1)) == 1 && Count(st.log, RanFor(1)) == 1
  {
    hide Reachable, Run;
    var s1 := ExecutedRun();
    st := s1.(rows := map[1 := Row(Completed, 1, 1, 0, Some(7), Some(3), false)],
              sessions := map[5 := Session(7, 1, 1, Submitting(true), AckAnswered(true), SubmitAnswered(true))],
              log := s1.log + [Finished(1, 5, 1, true)]);
    Reach(s1, ServeSubmit(5), st);
    SuccessComesFromTheExecutor(st);
  }

  /** The grant of call 3 is recovered, which frees the worker's slot, while the call's other
      request is still unprocessed; a second assignment is waiting. */
  lemma SecondPendingRun() returns (st: State)
    ensures Reachable(st)
    ensures st.rows == map[1 := Row(Pending, 1, 2, 3, None, None, false), 2 := Row(Pending, 1, 1, 0, None, None, false)]
    ensures 3 in st.calls && st.calls[3] == Call(7, 2, 1, true, {(1, 1)})
    ensures st.log == [Started(1, 7, Some(3), 1), Unheld(3)]
  {
    hide Reachable, Run;
    var s1 := GrantedRun();
    var s2 := Reap(s1, 1, 3);
    ReachableStep(s1, Recover(1, 3));
    st := CreateRow(s2, 2, 1, None);
    ReachableStep(s2, Create(2, 1, None));
  }

  /** The server looks for a replay among DISPATCHED rows only. When a request of a call is
      processed after the row granted to the call was recovered, the same token takes a second
      row, whatever the worker's capacity. */
  lemma LateRequestTakesASecondRow() returns (st: State)
    ensures Reachable(st) && 3 in st.calls
    ensures Count(st.log, StartVia(3)) == 2 && Count(st.log, UnheldBy(3)) == 1
    ensures Started(1, 7, Some(3), 1) in st.log && Started(2, 7, Some(3), 1) in st.log
  {
    hide Reachable, Run;
    var s1 := SecondPendingRun();
    st := s1.(rows := s1.rows[2 := Row(Dispatched, 1, 1, 0, Some(7), Some(3), true)],
              calls := s1.calls[3 := s1.calls[3].(served := 2, replies := s1.calls[3].replies + {(2, 1)})],
              log := s1.log + [Started(2, 7, Some(3), 1)]);
    GrantPending(s1, 3, 2, st);
    TwoStarts(st.log);
    assert Holds(st.rows[2], 3, 7);
    ClaimTakesOneRowUnlessReleased(st, 3);
  }

  lemma TwoStarts(log: seq<Entry>)
    requires log == [Started(1, 7, Some(3), 1), Unheld(3)] + [Started(2, 7, Some(3), 1)]
    ensures Started(1, 7, Some(3), 1) in log && Started(2, 7, Some(3), 1) in log
    ensures Count(log, StartVia(3)) >= 2
  {
    assert log[0] == Started(1, 7, Some(3), 1) && log[2] == Started(2, 7, Some(3), 1);
    CountTwo(log, StartVia(3), Started(1, 7, Some(3), 1), Started(2, 7, Some(3), 1));
  }

  /** Session 5's lease is recovered while its submit is on the way ... */
  lemma RecoveredRun() returns (st: State)
    ensures Reachable(st)
    ensures st.rows == map[1 := Row(Pending, 1, 2, 3, None, None, false)] && st.keys == {1}
    ensures 4 in st.calls && st.calls[4] == Call(7, 1, 0, true, {})
    ensures st.sessions == map[5 := Session(7, 1, 1, Submitting(true), AckAnswered(true), SubmitSent(true))]
  {
    hide Reachable, Run;
    var s1 := ExecutedRun();
    var s2 := Reap(s1, 1, 3);
    ReachableStep(s1, Recover(1, 3));
    st := OpenClaim(s2, 4, 7);
    ReachableStep(s2, OpenCall(4, 7));
  }

  /** ... and worker 7 is granted the second attempt. */
  lemma RegrantedRun() returns (st: State)
    ensures Reachable(st)
    ensures st.rows == map[1 := Row(Dispatched, 1, 2, 3, Some(7), Some(4), true)]
    ensures st.keys == {1}
    ensures st.sessions == map[5 := Session(7, 1, 1, Submitting(true), AckAnswered(true), SubmitSent(true))]
  {
    hide Reachable, Run;
    var s1 := RecoveredRun();
    st := s1.(rows := map[1 := Row(Dispatched, 1, 2, 3, Some(7), Some(4), true)],
              calls := s1.calls[4 := s1.calls[4].(served := 1, replies := s1.calls[4].replies + {(1, 2)})],
              log := s1.log + [Started(1, 7, Some(4), 2)]);
    GrantPending(s1, 4, 1, st);
  }

  /** Submit checks the worker, not the attempt. A session whose lease was recovered can
      have its result recorded under the attempt its worker was granted afterwards. */
  lemma OldSubmitLandsOnANewAttempt() returns (st: State)
    ensures Reachable(st)
    ensures Finished(1, 5, 2, true) in st.log && 5 in st.sessions && st.sessions[5].attempt == 1
  {
    hide Reachable, Run;
    var s1 := RegrantedRun();
    st := Submit(s1, 5);
    ReachableStep(s1, ServeSubmit(5));
  }
}
