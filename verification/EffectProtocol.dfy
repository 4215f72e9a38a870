/** The claim / ack / execute / submit protocol between the API server and any number of
    worker sessions. Requests and replies may be delayed or lost, sessions may die at any
    point, and a lease may be recovered at any time. A run is an arbitrary sequence of
    steps; a step whose guard fails leaves the state unchanged. */
module EffectProtocol {
  import opened Foundations
  import opened WorkerSession

  type AssignmentId = nat
  type WorkerId = nat
  type SessionId = nat
  type CallId = nat // one claim_next call, and the claim token it generates

  datatype Status = Pending | Dispatched | Acknowledged | Completed | Failed | Cancelled

  /** `permitted` is the largest maximum any recovery of the row has resolved; `lease` is whether its
      lease is still live. */
  datatype Row = Row(
    status: Status,
    firstAttempt: nat,
    attempt: nat,
    permitted: nat,
    worker: Option<WorkerId>,
    token: Option<CallId>,
    lease: bool)

  /** A claim_next call: how many requests it sent, how many of them the server has
      processed so far (possibly long after the client stopped waiting), and the
      grants on their way back. */
  datatype Call = Call(worker: WorkerId, sent: nat, served: nat, open: bool, replies: set<(AssignmentId, nat)>)

  datatype AckWire = AckSent | AckAnswered(created: bool)
  datatype SubmitWire = NoSubmit | SubmitSent(success: bool) | SubmitAnswered(success: bool)

  datatype Session = Session(
    worker: WorkerId,
    aid: AssignmentId,
    attempt: nat,
    pc: Pc,
    ack: AckWire,
    submit: SubmitWire)

  /** What happened, in order. `Begun` is the executor being started, whether or not it comes back;
      `Ran` is it coming back with a result. */
  datatype Entry =
    | Started(aid: AssignmentId, worker: WorkerId, via: Option<CallId>, attempt: nat)
    | Unheld(call: CallId)
    | Begun(aid: AssignmentId, session: SessionId)
    | Ran(aid: AssignmentId, session: SessionId, success: bool)
    | Finished(aid: AssignmentId, session: SessionId, attempt: nat, success: bool)

  datatype State = State(
    rows: map<AssignmentId, Row>,
    keys: set<AssignmentId>,
    calls: map<CallId, Call>,
    sessions: map<SessionId, Session>,
    log: seq<Entry>)

  const INIT := State(map[], {}, map[], map[], [])

  datatype Step =
    | Create(a: AssignmentId, attempt: nat, assignee: Option<WorkerId>)
    | OpenCall(c: CallId, w: WorkerId)
    | RetryClaim(c: CallId)
    | CloseCall(c: CallId)
    | ServeClaim(c: CallId, pick: Option<AssignmentId>)
    | ReceiveGrant(c: CallId, a: AssignmentId, attempt: nat, s: SessionId)
    | ServeAck(s: SessionId)
    | Client(s: SessionId, ev: Event)
    | ServeSubmit(s: SessionId)
    | Lapse(a: AssignmentId)
    | Recover(a: AssignmentId, maxAttempts: nat)
    | Cancel(a: AssignmentId)

  predicate InFlight(row: Row) {
    row.status == Dispatched || row.status == Acknowledged
  }

  /** The row an idempotent replay of call `c` would return. */
  predicate Holds(row: Row, c: CallId, w: WorkerId) {
    row.status == Dispatched && row.worker == Some(w) && row.token == Some(c)
  }

  predicate Held(st: State, c: CallId, w: WorkerId) {
    exists a | a in st.rows :: Holds(st.rows[a], c, w)
  }

  /** Leaving DISPATCHED ends the row's life as a replay answer for its token. */
  function Release(row: Row): seq<Entry> {
    if row.status == Dispatched && row.token.Some? then [Unheld(row.token.value)] else []
  }

  function CreateRow(st: State, a: AssignmentId, attempt: nat, assignee: Option<WorkerId>): State {
    if a in st.rows then st
    else
      var status := if assignee.Some? then Dispatched else Pending;
      st.(rows := st.rows[a := Row(status, attempt, attempt, 0, assignee, None, assignee.Some?)],
          log := if assignee.Some? then st.log + [Started(a, assignee.value, None, attempt)] else st.log)
  }

  function OpenClaim(st: State, c: CallId, w: WorkerId): State {
    if c in st.calls then st else st.(calls := st.calls[c := Call(w, 1, 0, true, {})])
  }

  /** A transport error is retried with the same token, three requests in all. */
  function ResendClaim(st: State, c: CallId): State {
    if c in st.calls && st.calls[c].open && st.calls[c].sent < CLAIM_NETWORK_RETRY_ATTEMPTS
    then st.(calls := st.calls[c := st.calls[c].(sent := st.calls[c].sent + 1)]) else st
  }

  function EndClaim(st: State, c: CallId): State {
    if c in st.calls then st.(calls := st.calls[c := st.calls[c].(open := false)]) else st
  }

  /** The server processes one request of call `c`: a row already held under the token is
      replayed, otherwise a pending row is granted, otherwise nothing is. */
  function Claim(st: State, c: CallId, pick: Option<AssignmentId>): State {
    if c !in st.calls || st.calls[c].served >= st.calls[c].sent then st
    else
      var call := st.calls[c];
      var answered := call.(served := call.served + 1);
      if pick.None? then
        if Held(st, c, call.worker) then st else st.(calls := st.calls[c := answered])
      else if pick.value !in st.rows then st
      else
        var a, row := pick.value, st.rows[pick.value];
        var reply := st.calls[c := answered.(replies := call.replies + {(a, row.attempt)})];
        if Holds(row, c, call.worker) then st.(calls := reply)
        else if Held(st, c, call.worker) || row.status != Pending then st
        else
          st.(rows := st.rows[a := row.(status := Dispatched, worker := Some(call.worker), token := Some(c), lease := true)],
              calls := reply,
              log := st.log + [Started(a, call.worker, Some(c), row.attempt)])
  }

  /** claim_next returns a granted assignment and run_one begins with its ack. */
  function Receive(st: State, c: CallId, a: AssignmentId, attempt: nat, s: SessionId): State {
    if c in st.calls && st.calls[c].open && (a, attempt) in st.calls[c].replies && s !in st.sessions
    then st.(calls := st.calls[c := st.calls[c].(open := false)],
             sessions := st.sessions[s := Session(st.calls[c].worker, a, attempt, Acking, AckSent, NoSubmit)])
    else st
  }

  /** The server processes an ack while the lease is live: DISPATCHED becomes ACKNOWLEDGED and
      the effect key, which depends on the assignment alone, is reserved. */
  function Acknowledge(st: State, s: SessionId): State {
    if s !in st.sessions || st.sessions[s].ack != AckSent || st.sessions[s].aid !in st.rows then st
    else
      var session := st.sessions[s];
      var a, row := session.aid, st.rows[session.aid];
      if row.status != Dispatched || row.worker != Some(session.worker) || !row.lease then st
      else
        st.(rows := st.rows[a := row.(status := Acknowledged)],
            keys := st.keys + {a},
            sessions := st.sessions[s := session.(ack := AckAnswered(a !in st.keys))],
            log := st.log + Release(row))
  }

  /** An ack event must match the server's answer; everything else the client does alone. */
  predicate ClientMay(session: Session, ev: Event) {
    && Accepts(session.pc, ev)
    && (ev.Acked? ==> session.ack.AckAnswered? && ev.created == Some(session.ack.created))
    && (ev.Submitted? ==> session.submit.SubmitAnswered?)
  }

  /** What a client event leaves in the log: a renewed session starts its executor, and an executor
      that returns reports. One that raises or dies with its process has begun and never ran. */
  function Noted(session: Session, s: SessionId, ev: Event): seq<Entry> {
    match ev
    case Renewed => [Begun(session.aid, s)]
    case Executed(success) => [Ran(session.aid, s, success)]
    case _ => []
  }

  function ClientMove(st: State, s: SessionId, ev: Event): State {
    if s !in st.sessions || !ClientMay(st.sessions[s], ev) then st
    else
      var session := st.sessions[s];
      var pc := Advance(session.pc, ev);
      var submit := if pc.Submitting? then SubmitSent(pc.success) else session.submit;
      st.(sessions := st.sessions[s := session.(pc := pc, submit := submit)],
          log := st.log + Noted(session, s, ev))
  }

  /** The server processes a submit. It reserves a missing key, replays a terminal row, and
      otherwise needs the row to be in flight for the submitting worker under a live lease. It
      does not look at the attempt number. A refusal rolls the key back with everything else. */
  function Submit(st: State, s: SessionId): State {
    if s !in st.sessions || !st.sessions[s].submit.SubmitSent? || st.sessions[s].aid !in st.rows then st
    else
      var session := st.sessions[s];
      var a, row, ok := session.aid, st.rows[session.aid], session.submit.success;
      var answered := st.sessions[s := session.(submit := SubmitAnswered(ok))];
      if a in st.keys && (row.status == Completed || row.status == Failed) then
        st.(sessions := answered)
      else if InFlight(row) && row.worker == Some(session.worker) && row.lease then
        st.(rows := st.rows[a := row.(status := if ok then Completed else Failed, lease := false)],
            keys := st.keys + {a},
            sessions := answered,
            log := st.log + Release(row) + [Finished(a, s, row.attempt, ok)])
      else st
  }

  /** Time passes the lease's end; nobody need notice. */
  function LapseLease(st: State, a: AssignmentId): State {
    if a in st.rows && InFlight(st.rows[a]) then st.(rows := st.rows[a := st.rows[a].(lease := false)]) else st
  }

  /** Recovery spends an attempt: the row is queued again, or fails when the maximum, which is
      resolved afresh each time, leaves none. */
  function RecoverRow(row: Row, maxAttempts: nat): Row {
    if row.attempt + 1 > maxAttempts then
      row.(status := Failed, worker := None, token := None, lease := false)
    else
      row.(status := Pending, attempt := row.attempt + 1, permitted := Larger(row.permitted, maxAttempts),
           worker := None, token := None, lease := false)
  }

  function Reap(st: State, a: AssignmentId, maxAttempts: nat): State {
    if a in st.rows && InFlight(st.rows[a])
    then st.(rows := st.rows[a := RecoverRow(st.rows[a], maxAttempts)], log := st.log + Release(st.rows[a])) else st
  }

  function CancelOpen(st: State, a: AssignmentId): State {
    if a in st.rows && (InFlight(st.rows[a]) || st.rows[a].status == Pending)
    then st.(rows := st.rows[a := st.rows[a].(status := Cancelled)], log := st.log + Release(st.rows[a])) else st
  }

  function Apply(st: State, step: Step): State {
    match step
    case Create(a, attempt, assignee) => CreateRow(st, a, attempt, assignee)
    case OpenCall(c, w) => OpenClaim(st, c, w)
    case RetryClaim(c) => ResendClaim(st, c)
    case CloseCall(c) => EndClaim(st, c)
    case ServeClaim(c, pick) => Claim(st, c, pick)
    case ReceiveGrant(c, a, attempt, s) => Receive(st, c, a, attempt, s)
    case ServeAck(s) => Acknowledge(st, s)
    case Client(s, ev) => ClientMove(st, s, ev)
    case ServeSubmit(s) => Submit(st, s)
    case Lapse(a) => LapseLease(st, a)
    case Recover(a, maxAttempts) => Reap(st, a, maxAttempts)
    case Cancel(a) => CancelOpen(st, a)
  }

  function Run(st: State, steps: seq<Step>): State
    decreases |steps|
  {
    if steps == [] then st else Run(Apply(st, steps[0]), steps[1..])
  }

  // ---------------------------------------------------------------------------
  // What the log is counted by

  function BegunFor(a: AssignmentId): Entry -> bool { (e: Entry) => e.Begun? && e.aid == a }
  function RanFor(a: AssignmentId): Entry -> bool { (e: Entry) => e.Ran? && e.aid == a }
  function StartOf(a: AssignmentId): Entry -> bool { (e: Entry) => e.Started? && e.aid == a }
  function StartBy(a: AssignmentId, w: WorkerId): Entry -> bool {
    (e: Entry) => e.Started? && e.aid == a && e.worker == w
  }
  function StartVia(c: CallId): Entry -> bool { (e: Entry) => e.Started? && e.via == Some(c) }
  function UnheldBy(c: CallId): Entry -> bool { (e: Entry) => e.Unheld? && e.call == c }

  // ---------------------------------------------------------------------------
  // The inductive invariant, one concern at a time

  predicate Won(session: Session) {
    session.ack == AckAnswered(true)
  }

  predicate SendsSuccess(session: Session) {
    session.pc == Submitting(true) || session.submit == SubmitSent(true) || session.submit == SubmitAnswered(true)
  }

  /** The key set is append-only and each key was created for at most one session. */
  ghost predicate KeysInv(st: State) {
    && (forall s | s in st.sessions && Won(st.sessions[s]) :: st.sessions[s].aid in st.keys)
    && (forall s, t | s in st.sessions && t in st.sessions && Won(st.sessions[s]) && Won(st.sessions[t])
          && st.sessions[s].aid == st.sessions[t].aid :: s == t)
    && (forall s | s in st.sessions && (st.sessions[s].pc.Renewing? || st.sessions[s].pc.Executing?) :: Won(st.sessions[s]))
  }

  /** The executor is started only inside the session that won the key, and once. */
  ghost predicate BegunInv(st: State) {
    && (forall e | e in st.log && e.Begun? ::
          && e.session in st.sessions
          && st.sessions[e.session].aid == e.aid
          && Won(st.sessions[e.session])
          && !st.sessions[e.session].pc.Acking?
          && !st.sessions[e.session].pc.Renewing?)
    && (forall s | s in st.sessions && st.sessions[s].pc.Executing? :: Begun(st.sessions[s].aid, s) in st.log)
    && (forall a :: Count(st.log, BegunFor(a)) <= 1)
  }

  /** It comes back only where it was started, and once. */
  ghost predicate RanInv(st: State) {
    && (forall e | e in st.log && e.Ran? ::
          && Begun(e.aid, e.session) in st.log
          && e.session in st.sessions
          && st.sessions[e.session].aid == e.aid
          && Won(st.sessions[e.session])
          && !st.sessions[e.session].pc.Renewing?
          && !st.sessions[e.session].pc.Executing?
          && !st.sessions[e.session].pc.Acking?)
    && (forall a :: Count(st.log, RanFor(a)) <= 1)
  }

  ghost predicate SuccessInv(st: State) {
    && (forall s | s in st.sessions && SendsSuccess(st.sessions[s]) :: Ran(st.sessions[s].aid, s, true) in st.log)
    && (forall e | e in st.log && e.Finished? && e.success :: Ran(e.aid, e.session, true) in st.log)
    && (forall a | a in st.rows && st.rows[a].status == Completed ::
          exists s, attempt :: Finished(a, s, attempt, true) in st.log)
  }

  /** One start per attempt: `n` starts have brought the row to its attempt. */
  predicate RowStarts(row: Row, n: nat) {
    && row.firstAttempt <= row.attempt
    && row.attempt <= Larger(row.firstAttempt, row.permitted)
    && (row.status == Pending ==> n == row.attempt - row.firstAttempt)
    && (row.status != Pending && row.status != Cancelled ==> n == row.attempt - row.firstAttempt + 1)
    && n <= row.attempt - row.firstAttempt + 1
  }

  ghost predicate StartsInv(st: State) {
    && (forall a | a in st.rows :: RowStarts(st.rows[a], Count(st.log, StartOf(a))))
    && (forall a | a !in st.rows :: Count(st.log, StartOf(a)) == 0)
  }

  function Larger(x: nat, y: nat): (m: nat)
    ensures m >= x && m >= y && (m == x || m == y)
  {
    if x < y then y else x
  }

  /** A token belongs to one call, and at most one row is DISPATCHED under it. */
  ghost predicate HoldersInv(st: State) {
    && (forall a | a in st.rows && st.rows[a].token.Some? ::
          st.rows[a].token.value in st.calls
          && (InFlight(st.rows[a]) ==> st.rows[a].worker == Some(st.calls[st.rows[a].token.value].worker)))
    && (forall a, b | a in st.rows && b in st.rows && st.rows[a].status == Dispatched && st.rows[b].status == Dispatched
          && st.rows[a].token.Some? && st.rows[a].token == st.rows[b].token :: a == b)
  }

  /** Grants under a token, less the grants that left DISPATCHED, are the row still held. */
  ghost predicate TokensInv(st: State) {
    && HoldersInv(st)
    && (forall c | c in st.calls ::
          && st.calls[c].served <= st.calls[c].sent <= CLAIM_NETWORK_RETRY_ATTEMPTS
          && Count(st.log, StartVia(c)) <= st.calls[c].served
          && Count(st.log, StartVia(c)) == Count(st.log, UnheldBy(c)) + (if Held(st, c, st.calls[c].worker) then 1 else 0))
    && (forall c | c !in st.calls :: Count(st.log, StartVia(c)) == 0 && Count(st.log, UnheldBy(c)) == 0)
  }

  /** Every session, every grant in transit and every row in flight comes from a logged start. */
  ghost predicate OriginInv(st: State) {
    && (forall a | a in st.rows && InFlight(st.rows[a]) ::
          st.rows[a].worker.Some? && Started(a, st.rows[a].worker.value, st.rows[a].token, st.rows[a].attempt) in st.log)
    && (forall c, p | c in st.calls && p in st.calls[c].replies ::
          Started(p.0, st.calls[c].worker, Some(c), p.1) in st.log)
    && (forall s | s in st.sessions :: exists via: Option<CallId> ::
          via.Some? && Started(st.sessions[s].aid, st.sessions[s].worker, via, st.sessions[s].attempt) in st.log)
  }

  /** A result recorded under another attempt than the session's own needs the worker to
      have been started twice on that assignment. */
  ghost predicate FenceInv(st: State) {
    forall e | e in st.log && e.Finished? ::
      && e.session in st.sessions
      && st.sessions[e.session].aid == e.aid
      && (st.sessions[e.session].attempt == e.attempt
          || Count(st.log, StartBy(e.aid, st.sessions[e.session].worker)) >= 2)
  }

  /** A session that has not got past its executor has sent no submit, and a recorded result
      answers the submit of the session it names. */
  ghost predicate SubmitInv(st: State) {
    && (forall s | s in st.sessions ::
          st.sessions[s].pc.Acking? || st.sessions[s].pc.Renewing? || st.sessions[s].pc.Executing? ==>
            st.sessions[s].submit.NoSubmit?)
    && (forall e | e in st.log && e.Finished? ::
          && e.session in st.sessions
          && st.sessions[e.session].submit == SubmitAnswered(e.success))
  }

  ghost predicate Inv(st: State) {
    && KeysInv(st) && BegunInv(st) && RanInv(st) && SuccessInv(st) && SubmitInv(st)
    && StartsInv(st) && TokensInv(st) && OriginInv(st) && FenceInv(st)
  }
}
