/** The protocol's invariant is kept by every step, one concern at a time. */
module EffectInvariants {
  import opened Foundations
  import opened WorkerSession
  import opened EffectProtocol

  // ---------------------------------------------------------------------------
  // Keys

  lemma KeysReceive(st: State, c: CallId, a: AssignmentId, attempt: nat, s: SessionId)
    requires KeysInv(st)
    ensures KeysInv(Apply(st, ReceiveGrant(c, a, attempt, s)))
  {
  }

  lemma KeysAck(st: State, s: SessionId)
    requires KeysInv(st)
    ensures KeysInv(Apply(st, ServeAck(s)))
  {
  }

  lemma KeysClient(st: State, s: SessionId, ev: Event)
    requires KeysInv(st)
    ensures KeysInv(Apply(st, Client(s, ev)))
  {
  }

  lemma KeysSubmit(st: State, s: SessionId)
    requires KeysInv(st)
    ensures KeysInv(Apply(st, ServeSubmit(s)))
  {
  }

  /** Steps that leave sessions alone and only add keys. */
  lemma KeysFrame(st: State, step: Step)
    requires KeysInv(st)
    requires !step.ReceiveGrant? && !step.ServeAck? && !step.Client? && !step.ServeSubmit?
    ensures KeysInv(Apply(st, step))
  {
  }

  lemma KeysStep(st: State, step: Step)
    requires KeysInv(st)
    ensures KeysInv(Apply(st, step))
  {
    hide *;
    match step
    case ReceiveGrant(c, a, attempt, s) => KeysReceive(st, c, a, attempt, s);
    case ServeAck(s) => KeysAck(st, s);
    case Client(s, ev) => KeysClient(st, s, ev);
    case ServeSubmit(s) => KeysSubmit(st, s);
    case _ => KeysFrame(st, step);
  }

  // ---------------------------------------------------------------------------
  // Executions

  /** Only the client's own steps move its program counter or log anything about the executor. */
  ghost predicate Unmoved(st: State, next: State) {
    forall s | s in st.sessions ::
      && s in next.sessions
      && next.sessions[s].aid == st.sessions[s].aid
      && next.sessions[s].pc == st.sessions[s].pc
      && (Won(st.sessions[s]) ==> Won(next.sessions[s]))
  }

  lemma BegunFrame(st: State, next: State, more: seq<Entry>)
    requires BegunInv(st) && Unmoved(st, next) && next.log == st.log + more
    requires forall e | e in more :: !e.Begun?
    requires forall s | s in next.sessions && s !in st.sessions :: next.sessions[s].pc.Acking?
    ensures BegunInv(next)
  {
    forall a
      ensures Count(next.log, BegunFor(a)) <= 1
    {
      CountIgnores(st.log, more, BegunFor(a));
    }
  }

  /** A session that has yet to renew holds the key alone, so nobody has begun before it. */
  lemma NoneBegunBefore(st: State, s: SessionId)
    requires KeysInv(st) && BegunInv(st) && s in st.sessions && st.sessions[s].pc.Renewing?
    ensures Count(st.log, BegunFor(st.sessions[s].aid)) == 0
  {
    if Count(st.log, BegunFor(st.sessions[s].aid)) > 0 {
      var e := CountWitness(st.log, BegunFor(st.sessions[s].aid));
    }
  }

  lemma BegunCounts(st: State, s: SessionId, ev: Event, a: AssignmentId)
    requires s in st.sessions && ClientMay(st.sessions[s], ev)
    ensures Count(ClientMove(st, s, ev).log, BegunFor(a)) ==
      Count(st.log, BegunFor(a)) + (if ev.Renewed? && st.sessions[s].aid == a then 1 else 0)
  {
    if ev.Renewed? {
      CountAppend(st.log, Begun(st.sessions[s].aid, s), BegunFor(a));
    } else {
      CountIgnores(st.log, Noted(st.sessions[s], s, ev), BegunFor(a));
    }
  }

  lemma BegunClient(st: State, s: SessionId, ev: Event)
    requires KeysInv(st) && BegunInv(st)
    ensures BegunInv(Apply(st, Client(s, ev)))
  {
    hide Count;
    if s in st.sessions && ClientMay(st.sessions[s], ev) {
      var next := ClientMove(st, s, ev);
      if ev.Renewed? {
        NoneBegunBefore(st, s);
        assert next.log[|st.log|] == Begun(st.sessions[s].aid, s);
      }
      forall a
        ensures Count(next.log, BegunFor(a)) <= 1
      {
        BegunCounts(st, s, ev, a);
      }
    }
  }

  lemma RanFrame(st: State, next: State, more: seq<Entry>)
    requires RanInv(st) && Unmoved(st, next) && next.log == st.log + more
    requires forall e | e in more :: !e.Ran?
    ensures RanInv(next)
  {
    forall a
      ensures Count(next.log, RanFor(a)) <= 1
    {
      CountIgnores(st.log, more, RanFor(a));
    }
  }

  lemma NoneRanBefore(st: State, s: SessionId)
    requires KeysInv(st) && RanInv(st) && s in st.sessions && st.sessions[s].pc.Executing?
    ensures Count(st.log, RanFor(st.sessions[s].aid)) == 0
  {
    if Count(st.log, RanFor(st.sessions[s].aid)) > 0 {
      var e := CountWitness(st.log, RanFor(st.sessions[s].aid));
    }
  }

  lemma RanCounts(st: State, s: SessionId, ev: Event, a: AssignmentId)
    requires s in st.sessions && ClientMay(st.sessions[s], ev)
    ensures Count(ClientMove(st, s, ev).log, RanFor(a)) ==
      Count(st.log, RanFor(a)) + (if ev.Executed? && st.sessions[s].aid == a then 1 else 0)
  {
    if ev.Executed? {
      CountAppend(st.log, Ran(st.sessions[s].aid, s, ev.success), RanFor(a));
    } else {
      CountIgnores(st.log, Noted(st.sessions[s], s, ev), RanFor(a));
    }
  }

  lemma RanClient(st: State, s: SessionId, ev: Event)
    requires KeysInv(st) && BegunInv(st) && RanInv(st)
    ensures RanInv(Apply(st, Client(s, ev)))
  {
    hide Count;
    if s in st.sessions && ClientMay(st.sessions[s], ev) {
      var next := ClientMove(st, s, ev);
      if ev.Executed? {
        NoneRanBefore(st, s);
      }
      forall a
        ensures Count(next.log, RanFor(a)) <= 1
      {
        RanCounts(st, s, ev, a);
      }
    }
  }

  /** What a step other than the client's own adds to the log. */
  function Added(st: State, step: Step): seq<Entry> {
    var next := Apply(st, step);
    if |st.log| <= |next.log| then next.log[|st.log|..] else []
  }

  lemma LogGrowsSubmit(st: State, s: SessionId)
    ensures st.log <= Submit(st, s).log
    ensures forall e | e in Submit(st, s).log[|st.log|..] :: !e.Begun? && !e.Ran? && !e.Started?
  {
  }

  lemma LogGrowsElse(st: State, step: Step)
    requires !step.ServeSubmit?
    ensures st.log <= Apply(st, step).log
    ensures forall e | e in Apply(st, step).log[|st.log|..] :: !e.Finished? && (e.Begun? || e.Ran? ==> step.Client?)
    ensures !step.Create? && !step.ServeClaim? ==> forall e | e in Apply(st, step).log[|st.log|..] :: !e.Started?
  {
  }

  lemma LogGrows(st: State, step: Step)
    ensures Apply(st, step).log == st.log + Added(st, step)
    ensures !step.Client? ==> forall e | e in Added(st, step) :: !e.Begun? && !e.Ran?
    ensures !step.ServeSubmit? ==> forall e | e in Added(st, step) :: !e.Finished?
    ensures !step.Create? && !step.ServeClaim? ==> forall e | e in Added(st, step) :: !e.Started?
  {
    hide Submit;
    if step.ServeSubmit? {
      LogGrowsSubmit(st, step.s);
    } else {
      hide Apply;
      LogGrowsElse(st, step);
    }
  }

  /** A session never changes what it works on, nor forgets the server's ack answer. */
  predicate SameSession(before: Session, after: Session) {
    && after.aid == before.aid
    && after.worker == before.worker
    && after.attempt == before.attempt
    && (before.ack.AckAnswered? ==> after.ack == before.ack)
  }

  lemma SessionsKept(st: State, step: Step)
    ensures st.keys <= Apply(st, step).keys
    ensures forall s | s in st.sessions ::
      && s in Apply(st, step).sessions
      && SameSession(st.sessions[s], Apply(st, step).sessions[s])
      && (!step.Client? ==> Apply(st, step).sessions[s].pc == st.sessions[s].pc)
      && (!step.Client? && st.sessions[s].submit.NoSubmit? ==> Apply(st, step).sessions[s].submit.NoSubmit?)
  {
    match step
    case ReceiveGrant(c, a, attempt, s) =>
    case ServeAck(s) =>
    case Client(s, ev) =>
    case ServeSubmit(s) =>
    case _ =>
  }

  lemma NewSessionsAck(st: State, step: Step)
    ensures forall s | s in Apply(st, step).sessions && s !in st.sessions :: Apply(st, step).sessions[s].pc.Acking?
  {
  }

  lemma ExecutionsStep(st: State, step: Step)
    requires KeysInv(st) && BegunInv(st) && RanInv(st)
    ensures BegunInv(Apply(st, step)) && RanInv(Apply(st, step))
  {
    hide Apply, Added, KeysInv, BegunInv, RanInv;
    if step.Client? {
      BegunClient(st, step.s, step.ev);
      RanClient(st, step.s, step.ev);
    } else {
      LogGrows(st, step);
      SessionsKept(st, step);
      NewSessionsAck(st, step);
      BegunFrame(st, Apply(st, step), Added(st, step));
      RanFrame(st, Apply(st, step), Added(st, step));
    }
  }

  // ---------------------------------------------------------------------------
  // Successes

  lemma SuccessClient(st: State, s: SessionId, ev: Event)
    requires SuccessInv(st)
    ensures SuccessInv(Apply(st, Client(s, ev)))
  {
  }

  lemma SuccessSubmit(st: State, s: SessionId)
    requires SuccessInv(st)
    ensures SuccessInv(Apply(st, ServeSubmit(s)))
  {
  }

  lemma SuccessFrame(st: State, next: State, more: seq<Entry>)
    requires SuccessInv(st) && next.log == st.log + more
    requires forall e | e in more :: !e.Finished?
    requires forall s | s in next.sessions && SendsSuccess(next.sessions[s]) ::
      s in st.sessions && SendsSuccess(st.sessions[s]) && next.sessions[s].aid == st.sessions[s].aid
    requires forall a | a in next.rows && next.rows[a].status == Completed ::
      a in st.rows && st.rows[a].status == Completed
    ensures SuccessInv(next)
  {
  }

  /** No other step sends a success or completes a row. */
  lemma SuccessUnmoved(st: State, step: Step)
    requires !step.Client? && !step.ServeSubmit?
    ensures forall s | s in Apply(st, step).sessions && SendsSuccess(Apply(st, step).sessions[s]) ::
      s in st.sessions && SendsSuccess(st.sessions[s]) && Apply(st, step).sessions[s].aid == st.sessions[s].aid
    ensures forall a | a in Apply(st, step).rows && Apply(st, step).rows[a].status == Completed ::
      a in st.rows && st.rows[a].status == Completed
  {
  }

  lemma SuccessStep(st: State, step: Step)
    requires SuccessInv(st)
    ensures SuccessInv(Apply(st, step))
  {
    hide *;
    match step
    case Client(s, ev) => SuccessClient(st, s, ev);
    case ServeSubmit(s) => SuccessSubmit(st, s);
    case _ =>
      LogGrows(st, step);
      SuccessUnmoved(st, step);
      SuccessFrame(st, Apply(st, step), Added(st, step));
  }

  // ---------------------------------------------------------------------------
  // Starts and attempts

  /** How a row may move without being started. */
  ghost predicate RowMoves(before: Row, after: Row) {
    || after == before.(lease := after.lease)
    || (InFlight(before)
        && (after.status == Acknowledged || after.status == Completed || after.status == Failed)
        && after.firstAttempt == before.firstAttempt && after.attempt == before.attempt
        && after.permitted == before.permitted)
    || (InFlight(before) && exists maxAttempts :: after == RecoverRow(before, maxAttempts))
    || ((InFlight(before) || before.status == Pending) && after == before.(status := Cancelled))
  }

  lemma RowStartsKept(before: Row, after: Row, n: nat)
    requires RowStarts(before, n) && RowMoves(before, after)
    ensures RowStarts(after, n)
  {
  }

  lemma StartsFrame(st: State, next: State, more: seq<Entry>)
    requires StartsInv(st) && next.log == st.log + more
    requires forall e | e in more :: !e.Started?
    requires next.rows.Keys == st.rows.Keys
    requires forall a | a in st.rows :: RowMoves(st.rows[a], next.rows[a])
    ensures StartsInv(next)
  {
    hide RowStarts, RowMoves;
    forall a: AssignmentId
      ensures Count(next.log, StartOf(a)) == Count(st.log, StartOf(a))
    {
      CountIgnores(st.log, more, StartOf(a));
    }
    forall a | a in next.rows
      ensures RowStarts(next.rows[a], Count(next.log, StartOf(a)))
    {
      RowStartsKept(st.rows[a], next.rows[a], Count(st.log, StartOf(a)));
    }
  }

  /** Row `a` appears or is granted, and its start is logged. */
  lemma StartsOne(st: State, next: State, e: Entry)
    requires StartsInv(st) && e.Started? && next.log == st.log + [e]
    requires e.aid in next.rows && next.rows == st.rows[e.aid := next.rows[e.aid]]
    requires RowStarts(next.rows[e.aid], Count(st.log, StartOf(e.aid)) + 1)
    ensures StartsInv(next)
  {
  }

  lemma StartsCreate(st: State, a: AssignmentId, attempt: nat, assignee: Option<WorkerId>)
    requires StartsInv(st)
    ensures StartsInv(Apply(st, Create(a, attempt, assignee)))
  {
    if a !in st.rows && assignee.Some? {
      StartsOne(st, CreateRow(st, a, attempt, assignee), Started(a, assignee.value, None, attempt));
    }
  }

  lemma GrantStarts(row: Row, granted: Row, n: nat)
    requires RowStarts(row, n) && row.status == Pending
    requires granted.status == Dispatched && granted.attempt == row.attempt
    requires granted.firstAttempt == row.firstAttempt && granted.permitted == row.permitted
    ensures RowStarts(granted, n + 1)
  {
  }

  lemma StartsClaim(st: State, c: CallId, pick: Option<AssignmentId>)
    requires StartsInv(st)
    ensures StartsInv(Apply(st, ServeClaim(c, pick)))
  {
    hide RowStarts, Held, Count;
    var next := Claim(st, c, pick);
    if next.log != st.log {
      var a := pick.value;
      var e := Started(a, st.calls[c].worker, Some(c), st.rows[a].attempt);
      GrantStarts(st.rows[a], next.rows[a], Count(st.log, StartOf(a)));
      StartsOne(st, next, e);
    } else {
      ClaimKeepsRows(st, c, pick);
    }
  }

  lemma RowsMoveSubmit(st: State, s: SessionId)
    ensures Submit(st, s).rows.Keys == st.rows.Keys
    ensures forall a | a in st.rows :: RowMoves(st.rows[a], Submit(st, s).rows[a])
  {
  }

  lemma RowsMoveReap(st: State, a: AssignmentId, maxAttempts: nat)
    ensures Reap(st, a, maxAttempts).rows.Keys == st.rows.Keys
    ensures forall b | b in st.rows :: RowMoves(st.rows[b], Reap(st, a, maxAttempts).rows[b])
  {
    hide RecoverRow;
  }

  lemma RowsMoveElse(st: State, step: Step)
    requires !step.Create? && !step.ServeClaim? && !step.ServeSubmit? && !step.Recover?
    ensures Apply(st, step).rows.Keys == st.rows.Keys
    ensures forall a | a in st.rows :: RowMoves(st.rows[a], Apply(st, step).rows[a])
  {
  }

  lemma RowsMove(st: State, step: Step)
    requires !step.Create? && !step.ServeClaim?
    ensures Apply(st, step).rows.Keys == st.rows.Keys
    ensures forall a | a in st.rows :: RowMoves(st.rows[a], Apply(st, step).rows[a])
    ensures forall e | e in Added(st, step) :: !e.Started?
  {
    hide RowMoves, Added, Submit, Reap;
    LogGrows(st, step);
    if step.ServeSubmit? {
      RowsMoveSubmit(st, step.s);
    } else if step.Recover? {
      RowsMoveReap(st, step.a, step.maxAttempts);
    } else {
      hide Apply;
      RowsMoveElse(st, step);
    }
  }

  lemma StartsStep(st: State, step: Step)
    requires StartsInv(st)
    ensures StartsInv(Apply(st, step))
  {
    hide *;
    match step
    case Create(a, attempt, assignee) => StartsCreate(st, a, attempt, assignee);
    case ServeClaim(c, pick) => StartsClaim(st, c, pick);
    case _ =>
      LogGrows(st, step);
      RowsMove(st, step);
      StartsFrame(st, Apply(st, step), Added(st, step));
  }

  // ---------------------------------------------------------------------------
  // Claim tokens

  /** Ack, submit, recovery and cancellation all take one row out of DISPATCHED. */
  lemma TokensRelease(st: State, next: State, a: AssignmentId, more: seq<Entry>)
    requires TokensInv(st) && a in st.rows && (InFlight(st.rows[a]) || st.rows[a].status == Pending)
    requires next.calls == st.calls && a in next.rows && next.rows == st.rows[a := next.rows[a]]
    requires next.rows[a].status != Dispatched
    requires next.rows[a].token == None
      || (next.rows[a].token == st.rows[a].token && next.rows[a].worker == st.rows[a].worker
          && (InFlight(next.rows[a]) ==> InFlight(st.rows[a])))
    requires next.log == st.log + Release(st.rows[a]) + more
    requires forall e | e in more :: !e.Started? && !e.Unheld?
    ensures TokensInv(next)
  {
    var released := Release(st.rows[a]);
    forall c: CallId
      ensures Count(next.log, StartVia(c)) == Count(st.log, StartVia(c))
      ensures Count(next.log, UnheldBy(c)) ==
        Count(st.log, UnheldBy(c)) + (if st.rows[a].status == Dispatched && st.rows[a].token == Some(c) then 1 else 0)
    {
      CountIgnores(st.log + released, more, StartVia(c));
      CountIgnores(st.log, released, StartVia(c));
      CountIgnores(st.log + released, more, UnheldBy(c));
      if st.rows[a].status == Dispatched && st.rows[a].token == Some(c) {
        CountAppend(st.log, Unheld(c), UnheldBy(c));
      } else {
        CountIgnores(st.log, released, UnheldBy(c));
      }
    }
    forall c | c in st.calls
      ensures Held(next, c, st.calls[c].worker) <==>
        Held(st, c, st.calls[c].worker) && !(st.rows[a].status == Dispatched && st.rows[a].token == Some(c))
    {
      if Held(st, c, st.calls[c].worker) {
        var b :| b in st.rows && Holds(st.rows[b], c, st.calls[c].worker);
        assert b != a ==> b in next.rows && Holds(next.rows[b], c, st.calls[c].worker);
      }
      if Held(next, c, st.calls[c].worker) {
        var b :| b in next.rows && Holds(next.rows[b], c, st.calls[c].worker);
        assert b in st.rows && Holds(st.rows[b], c, st.calls[c].worker);
      }
    }
  }

  lemma StartCounts(log: seq<Entry>, a: AssignmentId, w: WorkerId, c: CallId, attempt: nat, d: CallId)
    ensures Count(log + [Started(a, w, Some(c), attempt)], StartVia(d)) == Count(log, StartVia(d)) + (if c == d then 1 else 0)
    ensures Count(log + [Started(a, w, Some(c), attempt)], UnheldBy(d)) == Count(log, UnheldBy(d))
  {
    CountAppend(log, Started(a, w, Some(c), attempt), StartVia(d));
    CountAppend(log, Started(a, w, Some(c), attempt), UnheldBy(d));
  }

  lemma HoldersGrant(st: State, c: CallId, a: AssignmentId)
    requires HoldersInv(st) && Claim(st, c, Some(a)).log != st.log
    ensures HoldersInv(Claim(st, c, Some(a)))
  {
  }

  /** What a grant needs and changes. */
  lemma Granted(st: State, c: CallId, a: AssignmentId)
    requires Claim(st, c, Some(a)).log != st.log
    ensures var next := Claim(st, c, Some(a));
      && c in st.calls && st.calls[c].served < st.calls[c].sent && !Held(st, c, st.calls[c].worker)
      && a in st.rows && st.rows[a].status == Pending
      && a in next.rows && next.rows == st.rows[a := next.rows[a]] && Holds(next.rows[a], c, st.calls[c].worker)
      && next.log == st.log + [Started(a, st.calls[c].worker, Some(c), st.rows[a].attempt)]
      && next.calls.Keys == st.calls.Keys
      && forall d | d in st.calls ::
        && next.calls[d].worker == st.calls[d].worker && next.calls[d].sent == st.calls[d].sent
        && next.calls[d].served == st.calls[d].served + (if c == d then 1 else 0)
  {
    hide Held;
  }

  lemma TokensGrant(st: State, c: CallId, a: AssignmentId)
    requires TokensInv(st) && Claim(st, c, Some(a)).log != st.log
    ensures TokensInv(Claim(st, c, Some(a)))
  {
    hide Claim, Held, Holds, HoldersInv, Count;
    HoldersGrant(st, c, a);
    Granted(st, c, a);
    var next := Claim(st, c, Some(a));
    forall d: CallId
      ensures Count(next.log, StartVia(d)) == Count(st.log, StartVia(d)) + (if c == d then 1 else 0)
      ensures Count(next.log, UnheldBy(d)) == Count(st.log, UnheldBy(d))
    {
      StartCounts(st.log, a, st.calls[c].worker, c, st.rows[a].attempt, d);
    }
    GrantedCounts(st, next, c, a);
  }

  lemma GrantedCounts(st: State, next: State, c: CallId, a: AssignmentId)
    requires TokensInv(st) && HoldersInv(next)
    requires c in st.calls && st.calls[c].served < st.calls[c].sent && !Held(st, c, st.calls[c].worker)
    requires a in st.rows && st.rows[a].status == Pending && a in next.rows
    requires next.rows == st.rows[a := next.rows[a]] && Holds(next.rows[a], c, st.calls[c].worker)
    requires next.calls.Keys == st.calls.Keys
    requires forall d | d in st.calls ::
      && next.calls[d].worker == st.calls[d].worker && next.calls[d].sent == st.calls[d].sent
      && next.calls[d].served == st.calls[d].served + (if c == d then 1 else 0)
    requires forall d: CallId :: Count(next.log, StartVia(d)) == Count(st.log, StartVia(d)) + (if c == d then 1 else 0)
    requires forall d: CallId :: Count(next.log, UnheldBy(d)) == Count(st.log, UnheldBy(d))
    ensures TokensInv(next)
  {
    HeldElsewhere(st, next, a, c);
  }

  lemma FreshHoldsNothing(st: State, c: CallId, w: WorkerId)
    requires TokensInv(st) && c !in st.calls
    ensures !Held(st, c, w)
  {
  }

  /** Calls may be opened, resent, answered or closed without touching rows or the log. */
  lemma TokensFrame(st: State, next: State)
    requires TokensInv(st)
    requires next.rows == st.rows && next.log == st.log && st.calls.Keys <= next.calls.Keys
    requires forall c | c in next.calls :: next.calls[c].served <= next.calls[c].sent <= CLAIM_NETWORK_RETRY_ATTEMPTS
    requires forall c | c in st.calls ::
      next.calls[c].worker == st.calls[c].worker && st.calls[c].served <= next.calls[c].served
    ensures TokensInv(next)
  {
    HeldSame(st, next);
    forall c | c in next.calls && c !in st.calls
      ensures !Held(st, c, next.calls[c].worker)
    {
      FreshHoldsNothing(st, c, next.calls[c].worker);
    }
  }

  lemma TokensClaim(st: State, c: CallId, pick: Option<AssignmentId>)
    requires TokensInv(st)
    ensures TokensInv(Apply(st, ServeClaim(c, pick)))
  {
    var next := Claim(st, c, pick);
    if next.log != st.log {
      TokensGrant(st, c, pick.value);
    } else {
      ClaimKeepsRows(st, c, pick);
      TokensFrame(st, next);
    }
  }

  lemma ClaimKeepsRows(st: State, c: CallId, pick: Option<AssignmentId>)
    requires Claim(st, c, pick).log == st.log
    ensures Claim(st, c, pick).rows == st.rows
    ensures Claim(st, c, pick).calls.Keys == st.calls.Keys
    ensures forall d | d in st.calls ::
      var call := Claim(st, c, pick).calls[d];
      && call.worker == st.calls[d].worker && call.sent == st.calls[d].sent
      && (call.served == st.calls[d].served || call.served == st.calls[d].served + 1 <= call.sent)
  {
  }

  lemma HeldSame(st: State, next: State)
    requires next.rows == st.rows
    ensures forall c, w :: Held(next, c, w) == Held(st, c, w)
  {
  }

  /** Granting pending row `a` under `c` leaves the other tokens' holdings alone. */
  lemma HeldElsewhere(st: State, next: State, a: AssignmentId, c: CallId)
    requires a in st.rows && st.rows[a].status == Pending && a in next.rows
    requires next.rows == st.rows[a := next.rows[a]] && next.rows[a].token == Some(c)
    ensures forall d, w | d != c :: Held(next, d, w) == Held(st, d, w)
  {
    forall d, w | d != c
      ensures Held(next, d, w) == Held(st, d, w)
    {
      if Held(st, d, w) {
        var b :| b in st.rows && Holds(st.rows[b], d, w);
        assert b in next.rows && Holds(next.rows[b], d, w);
      }
      if Held(next, d, w) {
        var b :| b in next.rows && Holds(next.rows[b], d, w);
        assert b in st.rows && Holds(st.rows[b], d, w);
      }
    }
  }

  lemma HeldNewRow(st: State, a: AssignmentId, row: Row)
    requires a !in st.rows && row.token == None
    ensures forall c, w :: Held(st.(rows := st.rows[a := row]), c, w) == Held(st, c, w)
  {
    var next := st.(rows := st.rows[a := row]);
    forall c, w
      ensures Held(next, c, w) == Held(st, c, w)
    {
      if Held(st, c, w) {
        var b :| b in st.rows && Holds(st.rows[b], c, w);
        assert b in next.rows && Holds(next.rows[b], c, w);
      }
    }
  }

  lemma HoldersNewRow(st: State, a: AssignmentId, row: Row)
    requires HoldersInv(st) && a !in st.rows && row.token == None
    ensures HoldersInv(st.(rows := st.rows[a := row]))
  {
  }

  /** A new row carries no token. */
  lemma TokensNewRow(st: State, a: AssignmentId, row: Row)
    requires TokensInv(st) && a !in st.rows && row.token == None
    ensures TokensInv(st.(rows := st.rows[a := row]))
  {
    hide Held, HoldersInv;
    HeldNewRow(st, a, row);
    HoldersNewRow(st, a, row);
    TokensSameHeld(st, st.(rows := st.rows[a := row]));
  }

  lemma TokensCreate(st: State, a: AssignmentId, attempt: nat, assignee: Option<WorkerId>)
    requires TokensInv(st)
    ensures TokensInv(Apply(st, Create(a, attempt, assignee)))
  {
    hide TokensInv;
    if a !in st.rows {
      var next := CreateRow(st, a, attempt, assignee);
      TokensNewRow(st, a, next.rows[a]);
      TokensLogged(st.(rows := next.rows), next, if assignee.Some? then [Started(a, assignee.value, None, attempt)] else []);
    }
  }

  /** Entries that name no token move none. */
  lemma TokensLogged(st: State, next: State, more: seq<Entry>)
    requires TokensInv(st) && next.rows == st.rows && next.calls == st.calls && next.log == st.log + more
    requires forall e | e in more :: !e.Unheld? && (e.Started? ==> e.via == None)
    ensures TokensInv(next)
  {
    forall c: CallId
      ensures Count(next.log, StartVia(c)) == Count(st.log, StartVia(c))
      ensures Count(next.log, UnheldBy(c)) == Count(st.log, UnheldBy(c))
    {
      CountIgnores(st.log, more, StartVia(c));
      CountIgnores(st.log, more, UnheldBy(c));
    }
    HeldSame(st, next);
  }

  lemma TokensClient(st: State, s: SessionId, ev: Event)
    requires TokensInv(st)
    ensures TokensInv(Apply(st, Client(s, ev)))
  {
    hide TokensInv;
    var next := ClientMove(st, s, ev);
    if next != st {
      TokensLogged(st, next, Noted(st.sessions[s], s, ev));
    }
  }

  lemma TokensSubmit(st: State, s: SessionId)
    requires TokensInv(st)
    ensures TokensInv(Apply(st, ServeSubmit(s)))
  {
    var next := Submit(st, s);
    if next.rows != st.rows {
      var session := st.sessions[s];
      TokensRelease(st, next, session.aid, [Finished(session.aid, s, st.rows[session.aid].attempt, session.submit.success)]);
    } else {
      SubmitKeepsRows(st, s);
      HeldSame(st, next);
    }
  }

  lemma SubmitKeepsRows(st: State, s: SessionId)
    requires Submit(st, s).rows == st.rows
    ensures Submit(st, s).log == st.log && Submit(st, s).calls == st.calls
  {
  }

  lemma TokensAck(st: State, s: SessionId)
    requires TokensInv(st)
    ensures TokensInv(Apply(st, ServeAck(s)))
  {
    var next := Acknowledge(st, s);
    if next != st {
      TokensRelease(st, next, st.sessions[s].aid, []);
    }
  }

  lemma TokensReap(st: State, a: AssignmentId, maxAttempts: nat)
    requires TokensInv(st)
    ensures TokensInv(Apply(st, Recover(a, maxAttempts)))
  {
    if a in st.rows && InFlight(st.rows[a]) {
      TokensRelease(st, Reap(st, a, maxAttempts), a, []);
    }
  }

  /** Rows may change as long as nobody holds anything else. */
  lemma TokensSameHeld(st: State, next: State)
    requires TokensInv(st) && HoldersInv(next) && next.calls == st.calls && next.log == st.log
    requires forall c, w :: Held(next, c, w) == Held(st, c, w)
    ensures TokensInv(next)
  {
    hide Held, HoldersInv;
  }

  lemma HeldLapse(st: State, a: AssignmentId)
    ensures forall c, w :: Held(LapseLease(st, a), c, w) == Held(st, c, w)
  {
    var next := LapseLease(st, a);
    forall c, w
      ensures Held(next, c, w) == Held(st, c, w)
    {
      if Held(st, c, w) {
        var b :| b in st.rows && Holds(st.rows[b], c, w);
        assert b in next.rows && Holds(next.rows[b], c, w);
      }
    }
  }

  lemma HoldersLapse(st: State, a: AssignmentId)
    requires HoldersInv(st)
    ensures HoldersInv(LapseLease(st, a))
  {
  }

  /** A lapsed lease changes no holding. */
  lemma TokensLapse(st: State, a: AssignmentId)
    requires TokensInv(st)
    ensures TokensInv(Apply(st, Lapse(a)))
  {
    hide Held, HoldersInv;
    HeldLapse(st, a);
    HoldersLapse(st, a);
    TokensSameHeld(st, LapseLease(st, a));
  }

  lemma TokensCancel(st: State, a: AssignmentId)
    requires TokensInv(st)
    ensures TokensInv(Apply(st, Cancel(a)))
  {
    if a in st.rows && (InFlight(st.rows[a]) || st.rows[a].status == Pending) {
      TokensRelease(st, CancelOpen(st, a), a, []);
    }
  }

  lemma TokensOpen(st: State, c: CallId, w: WorkerId)
    requires TokensInv(st)
    ensures TokensInv(Apply(st, OpenCall(c, w)))
  {
    TokensFrame(st, OpenClaim(st, c, w));
  }

  lemma TokensResend(st: State, c: CallId)
    requires TokensInv(st)
    ensures TokensInv(Apply(st, RetryClaim(c)))
  {
    TokensFrame(st, ResendClaim(st, c));
  }

  lemma TokensEnd(st: State, c: CallId)
    requires TokensInv(st)
    ensures TokensInv(Apply(st, CloseCall(c)))
  {
    TokensFrame(st, EndClaim(st, c));
  }

  lemma TokensReceive(st: State, c: CallId, a: AssignmentId, attempt: nat, s: SessionId)
    requires TokensInv(st)
    ensures TokensInv(Apply(st, ReceiveGrant(c, a, attempt, s)))
  {
    TokensFrame(st, Receive(st, c, a, attempt, s));
  }

  lemma TokensStep(st: State, step: Step)
    requires TokensInv(st)
    ensures TokensInv(Apply(st, step))
  {
    hide *;
    match step
    case Create(a, attempt, assignee) => TokensCreate(st, a, attempt, assignee);
    case ServeClaim(c, pick) => TokensClaim(st, c, pick);
    case Client(s, ev) => TokensClient(st, s, ev);
    case ServeSubmit(s) => TokensSubmit(st, s);
    case ServeAck(s) => TokensAck(st, s);
    case Lapse(a) => TokensLapse(st, a);
    case Recover(a, maxAttempts) => TokensReap(st, a, maxAttempts);
    case Cancel(a) => TokensCancel(st, a);
    case OpenCall(c, w) => TokensOpen(st, c, w);
    case RetryClaim(c) => TokensResend(st, c);
    case CloseCall(c) => TokensEnd(st, c);
    case ReceiveGrant(c, a, attempt, s) => TokensReceive(st, c, a, attempt, s);
  }

  // ---------------------------------------------------------------------------
  // Origins

  lemma OriginFrame(st: State, next: State, more: seq<Entry>)
    requires OriginInv(st) && next.log == st.log + more
    requires forall a | a in next.rows && InFlight(next.rows[a]) ::
      && a in st.rows && InFlight(st.rows[a])
      && next.rows[a].worker == st.rows[a].worker && next.rows[a].token == st.rows[a].token
      && next.rows[a].attempt == st.rows[a].attempt
    requires forall c | c in next.calls ::
      next.calls[c].replies == {}
      || (c in st.calls && next.calls[c].replies == st.calls[c].replies && next.calls[c].worker == st.calls[c].worker)
    requires forall s | s in next.sessions :: s in st.sessions && SameSession(st.sessions[s], next.sessions[s])
    ensures OriginInv(next)
  {
  }

  lemma OriginCreate(st: State, a: AssignmentId, attempt: nat, assignee: Option<WorkerId>)
    requires OriginInv(st)
    ensures OriginInv(Apply(st, Create(a, attempt, assignee)))
  {
  }

  lemma OriginClaim(st: State, c: CallId, pick: Option<AssignmentId>)
    requires OriginInv(st)
    ensures OriginInv(Apply(st, ServeClaim(c, pick)))
  {
  }

  lemma OriginReceive(st: State, c: CallId, a: AssignmentId, attempt: nat, s: SessionId)
    requires OriginInv(st)
    ensures OriginInv(Apply(st, ReceiveGrant(c, a, attempt, s)))
  {
    if Receive(st, c, a, attempt, s) != st {
      assert Started((a, attempt).0, st.calls[c].worker, Some(c), (a, attempt).1) in st.log;
    }
  }

  lemma OriginAck(st: State, s: SessionId)
    requires OriginInv(st)
    ensures OriginInv(Apply(st, ServeAck(s)))
  {
  }

  lemma OriginClient(st: State, s: SessionId, ev: Event)
    requires OriginInv(st)
    ensures OriginInv(Apply(st, Client(s, ev)))
  {
    LogGrows(st, Client(s, ev));
    OriginFrame(st, ClientMove(st, s, ev), Added(st, Client(s, ev)));
  }

  /** A submit moves no row but its own, and that one out of flight. */
  lemma SubmitRows(st: State, s: SessionId)
    ensures forall a | a in Submit(st, s).rows && InFlight(Submit(st, s).rows[a]) ::
      a in st.rows && Submit(st, s).rows[a] == st.rows[a]
    ensures Submit(st, s).calls == st.calls && Submit(st, s).sessions.Keys == st.sessions.Keys
  {
  }

  lemma OriginSubmit(st: State, s: SessionId)
    requires OriginInv(st)
    ensures OriginInv(Apply(st, ServeSubmit(s)))
  {
    hide Submit, OriginInv, Added, InFlight;
    LogGrows(st, ServeSubmit(s));
    SessionsKept(st, ServeSubmit(s));
    SubmitRows(st, s);
    OriginFrame(st, Submit(st, s), Added(st, ServeSubmit(s)));
  }

  lemma OriginReap(st: State, a: AssignmentId, maxAttempts: nat)
    requires OriginInv(st)
    ensures OriginInv(Apply(st, Recover(a, maxAttempts)))
  {
    if a in st.rows {
      OriginFrame(st, Reap(st, a, maxAttempts), if InFlight(st.rows[a]) then Release(st.rows[a]) else []);
    }
  }

  lemma OriginLapse(st: State, a: AssignmentId)
    requires OriginInv(st)
    ensures OriginInv(Apply(st, Lapse(a)))
  {
    OriginFrame(st, LapseLease(st, a), []);
  }

  lemma OriginCancel(st: State, a: AssignmentId)
    requires OriginInv(st)
    ensures OriginInv(Apply(st, Cancel(a)))
  {
    if CancelOpen(st, a) != st {
      OriginFrame(st, CancelOpen(st, a), Release(st.rows[a]));
    }
  }

  lemma OriginCalls(st: State, step: Step)
    requires OriginInv(st)
    requires step.OpenCall? || step.RetryClaim? || step.CloseCall?
    ensures OriginInv(Apply(st, step))
  {
  }

  lemma OriginStep(st: State, step: Step)
    requires OriginInv(st)
    ensures OriginInv(Apply(st, step))
  {
    hide *;
    match step
    case Create(a, attempt, assignee) => OriginCreate(st, a, attempt, assignee);
    case ServeClaim(c, pick) => OriginClaim(st, c, pick);
    case ReceiveGrant(c, a, attempt, s) => OriginReceive(st, c, a, attempt, s);
    case ServeAck(s) => OriginAck(st, s);
    case Client(s, ev) => OriginClient(st, s, ev);
    case ServeSubmit(s) => OriginSubmit(st, s);
    case Lapse(a) => OriginLapse(st, a);
    case Recover(a, maxAttempts) => OriginReap(st, a, maxAttempts);
    case Cancel(a) => OriginCancel(st, a);
    case _ => OriginCalls(st, step);
  }

  // ---------------------------------------------------------------------------
  // Attempt fencing

  lemma FenceFrame(st: State, next: State, more: seq<Entry>)
    requires FenceInv(st) && next.log == st.log + more
    requires forall e | e in more :: !e.Finished?
    requires forall s | s in st.sessions :: s in next.sessions && SameSession(st.sessions[s], next.sessions[s])
    ensures FenceInv(next)
  {
    forall e | e in next.log && e.Finished?
      ensures e.session in next.sessions && next.sessions[e.session].aid == e.aid
      ensures next.sessions[e.session].attempt == e.attempt
        || Count(next.log, StartBy(e.aid, next.sessions[e.session].worker)) >= 2
    {
      assert e in st.log;
      CountConcat(st.log, more, StartBy(e.aid, st.sessions[e.session].worker));
    }
  }

  /** An accepted submit under another attempt: the session's own start and the start of
      the current attempt are two different starts by the same worker. */
  lemma FenceFinish(st: State, s: SessionId, log: seq<Entry>)
    requires OriginInv(st) && s in st.sessions && st.sessions[s].aid in st.rows
    requires InFlight(st.rows[st.sessions[s].aid]) && st.rows[st.sessions[s].aid].worker == Some(st.sessions[s].worker)
    requires st.log <= log
    ensures st.sessions[s].attempt == st.rows[st.sessions[s].aid].attempt
      || Count(log, StartBy(st.sessions[s].aid, st.sessions[s].worker)) >= 2
  {
    var session, row := st.sessions[s], st.rows[st.sessions[s].aid];
    var a, w := session.aid, session.worker;
    if session.attempt != row.attempt {
      var via: Option<CallId> :| via.Some? && Started(a, w, via, session.attempt) in st.log;
      var mine, current := Started(a, w, via, session.attempt), Started(a, w, row.token, row.attempt);
      assert mine in log && current in log;
      CountTwo(log, StartBy(a, w), mine, current);
    }
  }

  lemma FenceAccepted(st: State, s: SessionId)
    requires OriginInv(st) && FenceInv(st) && Submit(st, s).rows != st.rows
    ensures FenceInv(Submit(st, s))
  {
    var next := Submit(st, s);
    var session, row := st.sessions[s], st.rows[st.sessions[s].aid];
    var finished := Finished(session.aid, s, row.attempt, session.submit.success);
    assert next.log == (st.log + Release(row)) + [finished];
    FenceFinish(st, s, next.log);
    var middle := st.(log := st.log + Release(row), sessions := next.sessions);
    FenceFrame(st, middle, Release(row));
    FenceAppend(middle, next, finished);
  }

  lemma FenceSubmit(st: State, s: SessionId)
    requires OriginInv(st) && FenceInv(st)
    ensures FenceInv(Apply(st, ServeSubmit(s)))
  {
    if Submit(st, s).rows != st.rows {
      FenceAccepted(st, s);
    } else {
      SubmitKeepsRows(st, s);
      SessionsKept(st, ServeSubmit(s));
      FenceFrame(st, Submit(st, s), []);
    }
  }

  lemma FenceAppend(st: State, next: State, finished: Entry)
    requires FenceInv(st) && next.log == st.log + [finished] && next.sessions == st.sessions
    requires finished.Finished? && finished.session in st.sessions && st.sessions[finished.session].aid == finished.aid
    requires st.sessions[finished.session].attempt == finished.attempt
      || Count(next.log, StartBy(finished.aid, st.sessions[finished.session].worker)) >= 2
    ensures FenceInv(next)
  {
  }

  lemma FenceStep(st: State, step: Step)
    requires OriginInv(st) && FenceInv(st)
    ensures FenceInv(Apply(st, step))
  {
    hide *;
    if step.ServeSubmit? {
      FenceSubmit(st, step.s);
    } else {
      LogGrows(st, step);
      SessionsKept(st, step);
      FenceFrame(st, Apply(st, step), Added(st, step));
    }
  }

  // ---------------------------------------------------------------------------
  // Submits

  lemma SubmitFrame(st: State, next: State, more: seq<Entry>)
    requires SubmitInv(st) && next.log == st.log + more
    requires forall e | e in more :: !e.Finished?
    requires forall s | s in st.sessions ::
      s in next.sessions && next.sessions[s].submit == st.sessions[s].submit && next.sessions[s].pc == st.sessions[s].pc
    requires forall s | s in next.sessions && s !in st.sessions :: next.sessions[s].submit.NoSubmit?
    ensures SubmitInv(next)
  {
  }

  lemma SubmitClient(st: State, s: SessionId, ev: Event)
    requires SubmitInv(st)
    ensures SubmitInv(Apply(st, Client(s, ev)))
  {
  }

  lemma SubmitServed(st: State, s: SessionId)
    requires SubmitInv(st)
    ensures SubmitInv(Apply(st, ServeSubmit(s)))
  {
  }

  lemma SubmitUnmoved(st: State, step: Step)
    requires !step.Client? && !step.ServeSubmit?
    ensures forall s | s in st.sessions ::
      && s in Apply(st, step).sessions
      && Apply(st, step).sessions[s].submit == st.sessions[s].submit
      && Apply(st, step).sessions[s].pc == st.sessions[s].pc
    ensures forall s | s in Apply(st, step).sessions && s !in st.sessions :: Apply(st, step).sessions[s].submit.NoSubmit?
  {
  }

  lemma SubmitStep(st: State, step: Step)
    requires SubmitInv(st)
    ensures SubmitInv(Apply(st, step))
  {
    hide *;
    match step
    case Client(s, ev) => SubmitClient(st, s, ev);
    case ServeSubmit(s) => SubmitServed(st, s);
    case _ =>
      LogGrows(st, step);
      SubmitUnmoved(st, step);
      SubmitFrame(st, Apply(st, step), Added(st, step));
  }

  // ---------------------------------------------------------------------------
  // Over whole runs

  lemma InitInv()
    ensures Inv(INIT)
  {
  }

  lemma InvStep(st: State, step: Step)
    requires Inv(st)
    ensures Inv(Apply(st, step))
  {
    hide Apply, KeysInv, BegunInv, RanInv, SuccessInv, SubmitInv, StartsInv, TokensInv, OriginInv, FenceInv;
    KeysStep(st, step);
    ExecutionsStep(st, step);
    SuccessStep(st, step);
    SubmitStep(st, step);
    StartsStep(st, step);
    TokensStep(st, step);
    OriginStep(st, step);
    FenceStep(st, step);
  }

  lemma {:induction false} InvRun(st: State, steps: seq<Step>)
    requires Inv(st)
    ensures Inv(Run(st, steps))
    decreases |steps|
  {
    hide Inv, Apply;
    if steps != [] {
      InvStep(st, steps[0]);
      InvRun(Apply(st, steps[0]), steps[1..]);
    }
  }
}
