/** The reference worker client and its service loop, as an object over an environment
    whose replies are arbitrary: every request may be lost, refused or answered. */
module WorkerClient {
  import opened Foundations
  import opened WorkerSession

  type AssignmentId = nat
  type Token = nat

  datatype WorkerStatus = Online | Busy | Draining

  datatype Request =
    | Register
    | Heartbeat(status: WorkerStatus, load: int)
    | Deregister
    | Claim(token: Token)
    | Ack(aid: AssignmentId)
    | Renew(aid: AssignmentId)
    | Execute(aid: AssignmentId)
    | Submit(aid: AssignmentId, success: bool)

  /** A transport error, an error status (or an executor that raises), a success status whose
      body cannot be decoded, or a body, of which each caller reads the field it needs. */
  datatype Reply =
    | TransportError
    | ErrorStatus
    | Undecodable
    | Body(assignment: Option<AssignmentId>, created: Option<bool>, success: bool)

  /** raise_for_status() lets it through. */
  predicate SuccessStatus(reply: Reply) {
    reply.Body? || reply.Undecodable?
  }

  datatype Exchange = Exchange(request: Request, reply: Reply)

  /** A heartbeat of the concurrent task: sent when the main task had logged `position` exchanges. */
  datatype Beat = Beat(position: nat, status: WorkerStatus, load: int)

  function StatusOf(draining: bool, load: int): WorkerStatus {
    if draining then Draining else if load != 0 then Busy else Online
  }

  /** The new heartbeats were sent between `lo` and `hi`, all reporting this state. */
  predicate Reported(before: seq<Beat>, after: seq<Beat>, lo: int, hi: int, load: int, draining: bool) {
    before <= after &&
    forall i | |before| <= i < |after| ::
      lo <= after[i].position <= hi && after[i].load == load && after[i].status == StatusOf(draining, load)
  }

  lemma ReportedOn(first: seq<Beat>, second: seq<Beat>, third: seq<Beat>,
                   lo: int, middle: int, now: int, load: int, draining: bool)
    requires Reported(first, second, lo, middle, load, draining) && lo <= now && middle <= now
    requires Reported(second, third, now, now, load, draining)
    ensures Reported(first, third, lo, now, load, draining)
  {
  }

  /** The API and the executor as the client sees them: any replies at all, one per request. */
  class Environment {
    const replies: nat -> Reply
    var log: seq<Exchange>
    var beats: seq<Beat>

    constructor (replies: nat -> Reply)
      ensures this.replies == replies && log == [] && beats == []
    {
      this.replies := replies;
      log, beats := [], [];
    }

    method Send(request: Request) returns (reply: Reply)
      modifies this`log
      ensures reply == replies(|old(log)|)
      ensures log == old(log) + [Exchange(request, reply)]
    {
      reply := replies(|log|);
      log := log + [Exchange(request, reply)];
    }
  }

  // ---------------------------------------------------------------------------
  // Reading a log

  function IsGrant(): Exchange -> bool {
    (x: Exchange) => x.request.Claim? && x.reply.Body? && x.reply.assignment.Some?
  }

  /** A submit that returned. */
  function IsReturn(): Exchange -> bool { (x: Exchange) => x.request.Submit? && x.reply.Body? }

  /** A submit the server accepted, whether or not the client could read the answer. */
  function IsAccepted(): Exchange -> bool { (x: Exchange) => x.request.Submit? && SuccessStatus(x.reply) }

  /** A submit that gave the slot back and then raised. */
  function IsUnreadable(): Exchange -> bool { (x: Exchange) => x.request.Submit? && x.reply.Undecodable? }

  function IsExecution(): Exchange -> bool { (x: Exchange) => x.request.Execute? }

  function IsClaim(): Exchange -> bool { (x: Exchange) => x.request.Claim? }

  /** What a session operation's reply means to the session automaton. */
  function EventOf(x: Exchange): Event {
    if !x.reply.Body? then Faulted
    else
      match x.request
      case Ack(_) => Acked(x.reply.created)
      case Renew(_) => Renewed
      case Execute(_) => Executed(x.reply.success)
      case Submit(_, _) => Submitted
      case _ => Faulted
  }

  /** The request a live session is waiting on. */
  function RequestAt(pc: Pc, aid: AssignmentId): Request
    requires Live(pc)
  {
    match pc
    case Acking => Ack(aid)
    case Renewing => Renew(aid)
    case Executing => Execute(aid)
    case Submitting(success) => Submit(aid, success)
  }

  /** `xs` is a stretch of the session automaton for `aid`, from `pc` on. */
  predicate Follows(pc: Pc, aid: AssignmentId, xs: seq<Exchange>)
    decreases |xs|
  {
    xs == [] || (
      && Live(pc)
      && xs[0].request == RequestAt(pc, aid)
      && Accepts(pc, EventOf(xs[0]))
      && Follows(Advance(pc, EventOf(xs[0])), aid, xs[1..]))
  }

  function Ends(pc: Pc, aid: AssignmentId, xs: seq<Exchange>): Pc
    requires Follows(pc, aid, xs)
    decreases |xs|
  {
    if xs == [] then pc else Ends(Advance(pc, EventOf(xs[0])), aid, xs[1..])
  }

  lemma {:induction false} FollowsOne(pc: Pc, aid: AssignmentId, xs: seq<Exchange>, x: Exchange)
    requires Follows(pc, aid, xs) && Live(Ends(pc, aid, xs))
    requires x.request == RequestAt(Ends(pc, aid, xs), aid) && Accepts(Ends(pc, aid, xs), EventOf(x))
    ensures Follows(pc, aid, xs + [x])
    ensures Ends(pc, aid, xs + [x]) == Advance(Ends(pc, aid, xs), EventOf(x))
    decreases |xs|
  {
    if xs == [] {
      assert xs + [x] == [x];
      assert [x][1..] == [];
    } else {
      assert (xs + [x])[1..] == xs[1..] + [x];
      FollowsOne(Advance(pc, EventOf(xs[0])), aid, xs[1..], x);
    }
  }

  /** What `log` adds to `start` is a path of the session for `aid` that ends at `pc`. */
  ghost predicate OnPath(aid: AssignmentId, start: seq<Exchange>, log: seq<Exchange>, pc: Pc) {
    && start <= log
    && Follows(Acking, aid, log[|start|..])
    && Ends(Acking, aid, log[|start|..]) == pc
  }

  lemma StartPath(aid: AssignmentId, start: seq<Exchange>)
    ensures OnPath(aid, start, start, Acking)
    ensures Count(start[|start|..], IsAccepted()) == 0
  {
    assert start[|start|..] == [];
  }

  lemma ExtendPath(aid: AssignmentId, start: seq<Exchange>, log: seq<Exchange>, pc: Pc, x: Exchange)
    requires OnPath(aid, start, log, pc) && Live(pc)
    requires x.request == RequestAt(pc, aid) && Accepts(pc, EventOf(x))
    ensures OnPath(aid, start, log + [x], Advance(pc, EventOf(x)))
    ensures start <= log && Count((log + [x])[|start|..], IsAccepted()) ==
      Count(log[|start|..], IsAccepted()) + (if IsAccepted()(x) then 1 else 0)
  {
    assert (log + [x])[|start|..] == log[|start|..] + [x];
    CountAppend(log[|start|..], x, IsAccepted());
    FollowsOne(Acking, aid, log[|start|..], x);
  }

  /** Where a session began. */
  datatype Start = Start(aid: AssignmentId, log: seq<Exchange>, beats: seq<Beat>, load: int, draining: bool)

  /** A session from `at` has got to `pc`: its exchanges are a path, its heartbeats report the load it began
      with, and no submit of a live session has been accepted. */
  ghost predicate Underway(at: Start, log: seq<Exchange>, beats: seq<Beat>, pc: Pc) {
    && OnPath(at.aid, at.log, log, pc)
    && Reported(at.beats, beats, |at.log|, |log| - 1, at.load, at.draining)
    && (Live(pc) ==> Count(log[|at.log|..], IsAccepted()) == 0)
  }

  lemma Begin(at: Start)
    ensures Underway(at, at.log, at.beats, Acking)
  {
    StartPath(at.aid, at.log);
  }

  /** What each reply makes of a session. */
  lemma Replies(aid: AssignmentId, reply: Reply)
    ensures Fits(Acking, aid, Exchange(Ack(aid), reply),
                 if !reply.Body? then Dead else if reply.created == Some(false) then Submitting(false) else Renewing)
    ensures Fits(Renewing, aid, Exchange(Renew(aid), reply), if !reply.Body? then Dead else Executing)
    ensures Fits(Executing, aid, Exchange(Execute(aid), reply),
                 if !reply.Body? then Dead else Submitting(reply.success))
    ensures forall success ::
      Fits(Submitting(success), aid, Exchange(Submit(aid, success), reply), if !reply.Body? then Dead else Done)
  {
  }

  /** `x` is the next exchange of a session at `pc`, and leads to `next`. */
  predicate Fits(pc: Pc, aid: AssignmentId, x: Exchange, next: Pc) {
    && Live(pc) && x.request == RequestAt(pc, aid)
    && Accepts(pc, EventOf(x)) && Advance(pc, EventOf(x)) == next
  }

  lemma Step(at: Start, log: seq<Exchange>, beats: seq<Beat>, pc: Pc, x: Exchange, more: seq<Beat>, next: Pc)
    requires Underway(at, log, beats, pc) && Fits(pc, at.aid, x, next)
    requires Reported(beats, more, |log|, |log|, at.load, at.draining)
    ensures Underway(at, log + [x], more, next)
    ensures at.log <= log + [x] && OnPath(at.aid, at.log, log + [x], next)
    ensures Reported(at.beats, more, |at.log|, |log + [x]| - 1, at.load, at.draining)
    ensures Count((log + [x])[|at.log|..], IsAccepted()) == if IsAccepted()(x) then 1 else 0
  {
    ExtendPath(at.aid, at.log, log, pc, x);
    ReportedOn(at.beats, beats, more, |at.log|, |log| - 1, |log|, at.load, at.draining);
    hide OnPath, Reported, Count;
  }

  // ---------------------------------------------------------------------------
  // What every path of a session satisfies

  function CanExecute(pc: Pc): nat {
    if pc.Acking? || pc.Renewing? || pc.Executing? then 1 else 0
  }

  /** A session executes at most once, has at most one submit accepted, and makes no claim; its
      submit returned exactly when it ends Done. */
  lemma {:induction false} SessionIsBounded(pc: Pc, aid: AssignmentId, xs: seq<Exchange>)
    requires Follows(pc, aid, xs)
    ensures Count(xs, IsExecution()) <= CanExecute(pc)
    ensures Count(xs, IsClaim()) == 0 && Count(xs, IsGrant()) == 0
    ensures Live(pc) ==> Count(xs, IsReturn()) == (if Ends(pc, aid, xs) == Done then 1 else 0)
    ensures Count(xs, IsAccepted()) == Count(xs, IsReturn()) + Count(xs, IsUnreadable()) <= 1
    ensures !Live(pc) ==> xs == []
    decreases |xs|
  {
    if xs != [] {
      var next := Advance(pc, EventOf(xs[0]));
      assert xs == [xs[0]] + xs[1..];
      CountFirst(xs[0], xs[1..], IsExecution());
      CountFirst(xs[0], xs[1..], IsClaim());
      CountFirst(xs[0], xs[1..], IsGrant());
      CountFirst(xs[0], xs[1..], IsReturn());
      CountFirst(xs[0], xs[1..], IsAccepted());
      CountFirst(xs[0], xs[1..], IsUnreadable());
      SessionIsBounded(next, aid, xs[1..]);
    }
  }

  lemma CountFirst<T>(x: T, xs: seq<T>, p: T -> bool)
    ensures Count([x] + xs, p) == (if p(x) then 1 else 0) + Count(xs, p)
  {
    CountConcat([x], xs, p);
    assert [x] == [] + [x];
    CountAppend([], x, p);
  }

  /** Only the last exchange of a session can be an accepted submit. */
  lemma {:induction false} AcceptedIsLast(pc: Pc, aid: AssignmentId, xs: seq<Exchange>, k: nat)
    requires Follows(pc, aid, xs) && k < |xs| - 1
    ensures !IsAccepted()(xs[k]) && !IsGrant()(xs[k])
    decreases |xs|
  {
    var next := Advance(pc, EventOf(xs[0]));
    if k > 0 {
      assert xs[1..][k - 1] == xs[k];
      AcceptedIsLast(next, aid, xs[1..], k - 1);
    } else {
      assert xs[1..] != [];
    }
  }

  /** A success is submitted only after this session's own executor reported it. */
  lemma {:induction false} SuccessIsEarned(pc: Pc, aid: AssignmentId, xs: seq<Exchange>, k: nat)
    requires Follows(pc, aid, xs) && k < |xs| && xs[k].request == Submit(aid, true)
    ensures pc == Submitting(true)
      || exists j :: 0 <= j < k && xs[j].request == Execute(aid) && xs[j].reply.Body? && xs[j].reply.success
    decreases |xs|
  {
    if k > 0 {
      var next := Advance(pc, EventOf(xs[0]));
      assert xs[1..][k - 1] == xs[k];
      SuccessIsEarned(next, aid, xs[1..], k - 1);
      if next != Submitting(true) {
        var j :| 0 <= j < k - 1 && xs[1..][j].request == Execute(aid) && xs[1..][j].reply.Body? && xs[1..][j].reply.success;
        assert xs[j + 1] == xs[1..][j];
      }
    }
  }

  /** After the server reports the effect key as taken, the session does not execute and
      can only submit a failure. */
  lemma RefusalNeverExecutes(aid: AssignmentId, xs: seq<Exchange>)
    requires Follows(Acking, aid, xs) && xs != []
    requires xs[0].reply.Body? && xs[0].reply.created == Some(false)
    ensures Count(xs, IsExecution()) == 0
    ensures forall k | 0 <= k < |xs| :: xs[k].request != Submit(aid, true)
  {
    assert xs == [xs[0]] + xs[1..];
    CountFirst(xs[0], xs[1..], IsExecution());
    SessionIsBounded(Submitting(false), aid, xs[1..]);
    forall k | 0 <= k < |xs|
      ensures xs[k].request != Submit(aid, true)
    {
      if k > 0 && xs[k].request == Submit(aid, true) {
        assert xs[1..][k - 1] == xs[k];
        SuccessIsEarned(Submitting(false), aid, xs[1..], k - 1);
        var j :| 0 <= j < k - 1 && xs[1..][j].request == Execute(aid);
        CountMember(xs[1..], IsExecution(), xs[1..][j]);
      }
    }
  }

  // ---------------------------------------------------------------------------
  // The client

  datatype ClaimOutcome = Assigned(aid: AssignmentId) | Nothing | Raised

  /** The exchanges of one claim_next call that was not draining: one to three requests, all
      with its token, of which only transport errors are retried. */
  predicate ClaimExchanges(token: Token, xs: seq<Exchange>, outcome: ClaimOutcome) {
    && 1 <= |xs| <= CLAIM_NETWORK_RETRY_ATTEMPTS
    && (forall k | 0 <= k < |xs| :: xs[k].request == Claim(token))
    && (forall k | 0 <= k < |xs| - 1 :: xs[k].reply.TransportError?)
    && match xs[|xs| - 1].reply
       case TransportError => outcome == Raised && |xs| == CLAIM_NETWORK_RETRY_ATTEMPTS
       case ErrorStatus => outcome == Raised
       case Undecodable => outcome == Raised
       case Body(None, _, _) => outcome == Nothing
       case Body(Some(a), _, _) => outcome == Assigned(a)
  }

  class ReferenceWorkerClient {
    const env: Environment
    var currentLoad: int
    var draining: bool

    constructor (env: Environment)
      ensures this.env == env && currentLoad == 0 && !draining
    {
      this.env := env;
      currentLoad := 0;
      draining := false;
    }

    /** While the main task waits, the heartbeat task may report any number of times. */
    method Pulse()
      modifies env`beats
      ensures Reported(old(env.beats), env.beats, |env.log|, |env.log|, currentLoad, draining)
    {
      var n: nat := *;
      while n > 0
        invariant Reported(old(env.beats), env.beats, |env.log|, |env.log|, currentLoad, draining)
      {
        env.beats := env.beats + [Beat(|env.log|, StatusOf(draining, currentLoad), currentLoad)];
        n := n - 1;
      }
    }

    /** One awaited request. */
    method Await(request: Request) returns (reply: Reply)
      modifies env
      ensures reply == env.replies(|old(env.log)|)
      ensures env.log == old(env.log) + [Exchange(request, reply)]
      ensures Reported(old(env.beats), env.beats, |old(env.log)|, |old(env.log)|, currentLoad, draining)
    {
      Pulse();
      reply := env.Send(request);
    }

    method ClaimNext(token: Token) returns (outcome: ClaimOutcome)
      modifies this`currentLoad, env
      ensures draining ==> env.log == old(env.log) && outcome == Nothing
      ensures !draining ==> old(env.log) <= env.log && ClaimExchanges(token, env.log[|old(env.log)|..], outcome)
      ensures currentLoad == old(currentLoad) + (if outcome.Assigned? then 1 else 0)
      ensures Reported(old(env.beats), env.beats, |old(env.log)|, |env.log| - 1, old(currentLoad), draining)
    {
      if draining {
        return Nothing;
      }
      ghost var start := env.log;
      var attempt := 0;
      while attempt < CLAIM_NETWORK_RETRY_ATTEMPTS
        invariant 0 <= attempt <= CLAIM_NETWORK_RETRY_ATTEMPTS
        invariant currentLoad == old(currentLoad)
        invariant Reported(old(env.beats), env.beats, |start|, |env.log| - 1, currentLoad, draining)
        invariant start <= env.log && |env.log| == |start| + attempt
        invariant forall k | |start| <= k < |env.log| :: env.log[k] == Exchange(Claim(token), TransportError)
      {
        var reply := Await(Claim(token));
        match reply
        case TransportError =>
          attempt := attempt + 1;
        case ErrorStatus =>
          return Raised;
        case Undecodable =>
          return Raised;
        case Body(assignment, _, _) =>
          if assignment.None? {
            return Nothing;
          }
          currentLoad := currentLoad + 1;
          return Assigned(assignment.value);
      }
      return Raised;
    }

    /** An accepted submit gives the slot back before its body is read, and may still raise then;
        the guard keeps a stray one from going below zero. */
    method SubmitResult(aid: AssignmentId, success: bool) returns (ok: bool)
      modifies this`currentLoad, env
      ensures ok == env.replies(|old(env.log)|).Body?
      ensures env.log == old(env.log) + [Exchange(Submit(aid, success), env.replies(|old(env.log)|))]
      ensures var accepted := SuccessStatus(env.replies(|old(env.log)|));
        currentLoad == if accepted && old(currentLoad) > 0 then old(currentLoad) - 1 else old(currentLoad)
      ensures Reported(old(env.beats), env.beats, |old(env.log)|, |old(env.log)|, old(currentLoad), draining)
    {
      var reply := Await(Submit(aid, success));
      if !SuccessStatus(reply) {
        return false;
      }
      if currentLoad > 0 {
        currentLoad := currentLoad - 1;
      }
      return reply.Body?;
    }

    /** Ack, then refuse or renew and execute, then submit. The exchanges are a complete path
        of the session automaton; `finished` is false when some operation raised. */
    method RunOne(aid: AssignmentId) returns (finished: bool)
      modifies this`currentLoad, env
      ensures OnPath(aid, old(env.log), env.log, if finished then Done else Dead)
      ensures old(env.log) <= env.log
      ensures currentLoad ==
        if old(currentLoad) > 0 then old(currentLoad) - Count(env.log[|old(env.log)|..], IsAccepted())
        else old(currentLoad)
      ensures Reported(old(env.beats), env.beats, |old(env.log)|, |env.log| - 1, old(currentLoad), draining)
    {
      hide OnPath, Count, Reported, Underway, Fits;
      ghost var at := Start(aid, env.log, env.beats, currentLoad, draining);
      Begin(at);
      var ack := Await(Ack(aid));
      Replies(aid, ack);
      if !ack.Body? {
        Step(at, at.log, at.beats, Acking, Exchange(Ack(aid), ack), env.beats, Dead);
        return false;
      }
      ghost var log, beats := env.log, env.beats;
      if ack.created == Some(false) {
        Step(at, at.log, at.beats, Acking, Exchange(Ack(aid), ack), beats, Submitting(false));
        finished := SubmitStep(at, aid, false);
        return;
      }
      Step(at, at.log, at.beats, Acking, Exchange(Ack(aid), ack), beats, Renewing);
      var renew := Await(Renew(aid));
      Replies(aid, renew);
      Step(at, log, beats, Renewing, Exchange(Renew(aid), renew), env.beats, if renew.Body? then Executing else Dead);
      if !renew.Body? {
        return false;
      }
      log, beats := env.log, env.beats;
      var execution := Await(Execute(aid));
      Replies(aid, execution);
      if !execution.Body? {
        Step(at, log, beats, Executing, Exchange(Execute(aid), execution), env.beats, Dead);
        return false;
      }
      Step(at, log, beats, Executing, Exchange(Execute(aid), execution), env.beats, Submitting(execution.success));
      finished := SubmitStep(at, aid, execution.success);
    }

    /** The submit that ends a session. */
    method SubmitStep(ghost at: Start, aid: AssignmentId, success: bool) returns (finished: bool)
      requires at.aid == aid && at.load == currentLoad && at.draining == draining
      requires Underway(at, env.log, env.beats, Submitting(success))
      modifies this`currentLoad, env
      ensures at.log <= env.log && OnPath(aid, at.log, env.log, if finished then Done else Dead)
      ensures currentLoad == if at.load > 0 then at.load - Count(env.log[|at.log|..], IsAccepted()) else at.load
      ensures Reported(at.beats, env.beats, |at.log|, |env.log| - 1, at.load, draining)
    {
      hide OnPath, Count, Reported, Underway, Fits;
      ghost var log, beats := env.log, env.beats;
      finished := SubmitResult(aid, success);
      ghost var reply := env.replies(|log|);
      Replies(aid, reply);
      Step(at, log, beats, Submitting(success), Exchange(Submit(aid, success), reply), env.beats,
           if finished then Done else Dead);
    }

    method SendHeartbeat() returns (ok: bool)
      modifies env`log
      ensures ok == SuccessStatus(env.replies(|old(env.log)|))
      ensures exists status ::
        env.log == old(env.log) + [Exchange(Heartbeat(status, currentLoad), env.replies(|old(env.log)|))]
        && (status == Draining <==> draining) && (status == Busy <==> !draining && currentLoad != 0)
    {
      var status := StatusOf(draining, currentLoad);
      var reply := env.Send(Heartbeat(status, currentLoad));
      ok := SuccessStatus(reply);
    }

    method Drain() returns (ok: bool)
      modifies this`draining, env`log
      ensures draining
      ensures ok == SuccessStatus(env.replies(|old(env.log)|))
      ensures env.log == old(env.log) + [Exchange(Heartbeat(Draining, currentLoad), env.replies(|old(env.log)|))]
    {
      draining := true;
      ok := SendHeartbeat();
    }
  }

  // ---------------------------------------------------------------------------
  // The service loop

  lemma {:induction false} AllSame(xs: seq<Exchange>, p: Exchange -> bool)
    requires forall x | x in xs :: !p(x)
    ensures Count(xs, p) == 0
  {
    if Count(xs, p) > 0 {
      var x := CountWitness(xs, p);
    }
  }

  /** A claim_next call logs a grant exactly when it returns an assignment. */
  lemma ClaimCounts(token: Token, xs: seq<Exchange>, outcome: ClaimOutcome)
    requires ClaimExchanges(token, xs, outcome)
    ensures Count(xs, IsGrant()) == (if outcome.Assigned? then 1 else 0)
    ensures Count(xs, IsReturn()) == 0 && Count(xs, IsExecution()) == 0
    ensures Count(xs, IsAccepted()) == 0 && Count(xs, IsUnreadable()) == 0
  {
    var front, last := xs[..|xs| - 1], xs[|xs| - 1];
    AllSame(front, IsGrant());
    AllSame(xs, IsReturn());
    AllSame(xs, IsExecution());
    AllSame(xs, IsAccepted());
    AllSame(xs, IsUnreadable());
  }

  /** Grants less accepted submits, with no more executions than grants; an accepted submit
      returned or was unreadable. */
  ghost predicate Balanced(xs: seq<Exchange>, load: int) {
    && load == Count(xs, IsGrant()) - Count(xs, IsAccepted())
    && 0 <= load
    && Count(xs, IsExecution()) <= Count(xs, IsGrant())
    && Count(xs, IsAccepted()) == Count(xs, IsReturn()) + Count(xs, IsUnreadable())
  }

  lemma CountsConcat(xs: seq<Exchange>, ys: seq<Exchange>)
    ensures Count(xs + ys, IsGrant()) == Count(xs, IsGrant()) + Count(ys, IsGrant())
    ensures Count(xs + ys, IsReturn()) == Count(xs, IsReturn()) + Count(ys, IsReturn())
    ensures Count(xs + ys, IsExecution()) == Count(xs, IsExecution()) + Count(ys, IsExecution())
    ensures Count(xs + ys, IsAccepted()) == Count(xs, IsAccepted()) + Count(ys, IsAccepted())
    ensures Count(xs + ys, IsUnreadable()) == Count(xs, IsUnreadable()) + Count(ys, IsUnreadable())
  {
    CountConcat(xs, ys, IsGrant());
    CountConcat(xs, ys, IsReturn());
    CountConcat(xs, ys, IsExecution());
    CountConcat(xs, ys, IsAccepted());
    CountConcat(xs, ys, IsUnreadable());
  }

  lemma BalancedClaim(xs: seq<Exchange>, load: int, token: Token, more: seq<Exchange>, outcome: ClaimOutcome)
    requires Balanced(xs, load) && ClaimExchanges(token, more, outcome) && !outcome.Assigned?
    ensures Balanced(xs + more, load)
  {
    hide Count, ClaimExchanges;
    ClaimCounts(token, more, outcome);
    CountsConcat(xs, more);
  }

  /** A granted claim and the session it starts: the load is given back exactly when the
      session's submit was accepted, whether or not it then returned. */
  lemma BalancedCycle(xs: seq<Exchange>, load: int, token: Token, claim: seq<Exchange>, aid: AssignmentId, session: seq<Exchange>)
    requires Balanced(xs, load) && ClaimExchanges(token, claim, Assigned(aid))
    requires Follows(Acking, aid, session)
    ensures Count(session, IsAccepted()) <= 1
    ensures Balanced(xs + claim + session, load + 1 - Count(session, IsAccepted()))
  {
    hide Count, ClaimExchanges, Follows;
    ClaimCounts(token, claim, Assigned(aid));
    SessionIsBounded(Acking, aid, session);
    CountsConcat(xs, claim);
    CountsConcat(xs + claim, session);
  }

  /** The load is grants less returned submits exactly when no accepted submit was unreadable. */
  lemma LoadCountsReturnsExactly(xs: seq<Exchange>, load: int)
    requires Balanced(xs, load)
    ensures load == Count(xs, IsGrant()) - Count(xs, IsReturn()) <==> forall x | x in xs :: !IsUnreadable()(x)
  {
    if x :| x in xs && IsUnreadable()(x) {
      CountMember(xs, IsUnreadable(), x);
    } else {
      AllSame(xs, IsUnreadable());
    }
  }

  /** A refused session whose submit is accepted but unreadable: it dies, with its slot given back. */
  lemma UnreadableSession(aid: AssignmentId, created: Exchange, submit: Exchange)
    requires created == Exchange(Ack(aid), Body(None, Some(false), true))
    requires submit == Exchange(Submit(aid, false), Undecodable)
    ensures Follows(Acking, aid, [created, submit]) && Ends(Acking, aid, [created, submit]) == Dead
    ensures Count([created, submit], IsAccepted()) == 1 && Count([created, submit], IsReturn()) == 0
  {
    assert [created, submit][1..] == [submit] && [submit][1..] == [];
    assert Ends(Dead, aid, []) == Dead;
    assert EventOf(submit) == Faulted && Follows(Submitting(false), aid, [submit]);
    assert Ends(Submitting(false), aid, [submit]) == Dead;
    CountFirst(created, [submit], IsAccepted());
    CountFirst(submit, [], IsAccepted());
    assert [created] + [submit] == [created, submit] && [submit] + [] == [submit];
    SessionIsBounded(Acking, aid, [created, submit]);
  }

  /** Such a run: the load is back at zero although the one granted assignment's submit never returned. */
  lemma UnreadableSubmitBreaksTheCount(claim: Exchange, created: Exchange, submit: Exchange)
    requires claim == Exchange(Claim(0), Body(Some(7), None, true))
    requires created == Exchange(Ack(7), Body(None, Some(false), true))
    requires submit == Exchange(Submit(7, false), Undecodable)
    ensures Balanced([claim, created, submit], 0)
    ensures Count([claim, created, submit], IsGrant()) - Count([claim, created, submit], IsReturn()) == 1
  {
    hide Count, Follows, Ends;
    var session := [created, submit];
    UnreadableSession(7, created, submit);
    NothingBalanced();
    BalancedCycle([], 0, 0, [claim], 7, session);
    SessionIsBounded(Acking, 7, session);
    ClaimCounts(0, [claim], Assigned(7));
    CountsConcat([claim], session);
    assert [] + [claim] + session == [claim] + session == [claim, created, submit];
  }

  lemma NothingBalanced()
    ensures Balanced([], 0)
  {
  }

  lemma LoadIsNatural(xs: seq<Exchange>, load: int)
    requires Balanced(xs, load)
    ensures load >= 0
  {
  }

  lemma PathFollows(aid: AssignmentId, start: seq<Exchange>, log: seq<Exchange>, pc: Pc)
    requires OnPath(aid, start, log, pc)
    ensures start <= log && Follows(Acking, aid, log[|start|..])
  {
  }

  /** Grants less accepted submits. */
  function Balance(xs: seq<Exchange>): int {
    Count(xs, IsGrant()) - Count(xs, IsAccepted())
  }

  lemma BalanceConcat(xs: seq<Exchange>, ys: seq<Exchange>)
    ensures Balance(xs + ys) == Balance(xs) + Balance(ys)
  {
    CountConcat(xs, ys, IsGrant());
    CountConcat(xs, ys, IsAccepted());
  }

  lemma FlatBalance(xs: seq<Exchange>)
    requires forall x | x in xs :: !IsGrant()(x) && !IsAccepted()(x)
    ensures Balance(xs) == 0
  {
    AllSame(xs, IsGrant());
    AllSame(xs, IsAccepted());
  }

  /** Until its last reply neither a claim nor a session moves the balance. */
  predicate Flat(xs: seq<Exchange>) {
    forall k | 0 <= k < |xs| :: Balance(xs[..k]) == 0
  }

  lemma ClaimIsFlat(token: Token, xs: seq<Exchange>, outcome: ClaimOutcome)
    requires ClaimExchanges(token, xs, outcome)
    ensures Flat(xs)
  {
    forall k | 0 <= k < |xs|
      ensures Balance(xs[..k]) == 0
    {
      FlatBalance(xs[..k]);
    }
  }

  lemma SessionIsFlat(aid: AssignmentId, xs: seq<Exchange>)
    requires Follows(Acking, aid, xs)
    ensures Flat(xs)
  {
    forall k | 0 <= k < |xs|
      ensures Balance(xs[..k]) == 0
    {
      forall j | 0 <= j < k
        ensures !IsAccepted()(xs[j]) && !IsGrant()(xs[j])
      {
        AcceptedIsLast(Acking, aid, xs, j);
      }
      FlatBalance(xs[..k]);
    }
  }

  /** Every heartbeat from the `first` on reported the balance of what had been exchanged since `start`. */
  ghost predicate Honest(start: seq<Exchange>, log: seq<Exchange>, beats: seq<Beat>, first: nat) {
    start <= log && first <= |beats| &&
    forall i | first <= i < |beats| ::
      && |start| <= beats[i].position <= |log|
      && beats[i].load == Balance(log[|start|..beats[i].position])
      && beats[i].status == StatusOf(false, beats[i].load)
  }

  /** A stretch that is flat until its last reply, with its heartbeats. */
  lemma HonestStretch(start: seq<Exchange>, log: seq<Exchange>, beats: seq<Beat>, first: nat,
                      after: seq<Exchange>, more: seq<Beat>, load: int)
    requires Honest(start, log, beats, first) && load == Balance(log[|start|..])
    requires log <= after && Flat(after[|log|..])
    requires Reported(beats, more, |log|, |after| - 1, load, false)
    ensures beats <= more && Honest(start, after, more, first)
  {
    hide Balance;
    forall i | first <= i < |more|
      ensures |start| <= more[i].position <= |after|
      ensures more[i].load == Balance(after[|start|..more[i].position])
      ensures more[i].status == StatusOf(false, more[i].load)
    {
      var p := more[i].position;
      if i < |beats| {
        assert more[i] == beats[i];
        assert after[|start|..p] == log[|start|..p];
      } else {
        var k := p - |log|;
        assert after[|start|..p] == log[|start|..] + after[|log|..][..k];
        BalanceConcat(log[|start|..], after[|log|..][..k]);
      }
    }
  }

  /** Heartbeats between turns. */
  lemma HonestPause(start: seq<Exchange>, log: seq<Exchange>, beats: seq<Beat>, first: nat, more: seq<Beat>, load: int)
    requires Honest(start, log, beats, first) && load == Balance(log[|start|..])
    requires Reported(beats, more, |log|, |log|, load, false)
    ensures beats <= more && Honest(start, log, more, first)
  {
    hide Balance;
    forall i | first <= i < |more|
      ensures |start| <= more[i].position <= |log|
      ensures more[i].load == Balance(log[|start|..more[i].position])
      ensures more[i].status == StatusOf(false, more[i].load)
    {
      if i < |beats| {
        assert more[i] == beats[i];
      } else {
        assert log[|start|..|log|] == log[|start|..];
      }
    }
  }

  lemma BalancedLoad(xs: seq<Exchange>, load: int)
    requires Balanced(xs, load)
    ensures load == Balance(xs)
  {
  }

  /** What was logged since `start`, in two stretches. */
  lemma Since(start: seq<Exchange>, middle: seq<Exchange>, log: seq<Exchange>)
    requires start <= middle <= log
    ensures log[|start|..] == middle[|start|..] + log[|middle|..]
  {
    assert log == middle + log[|middle|..];
  }

  /** `xs` is one claim call under this token and, if it brought an assignment, one whole session of it. */
  ghost predicate IsTurn(token: Token, xs: seq<Exchange>) {
    exists n, outcome |
      0 <= n <= |xs| && ClaimExchanges(token, xs[..n], outcome) ::
      if outcome.Assigned? then Complete(outcome.aid, xs[n..]) else n == |xs|
  }

  /** A session that went on until it ended. */
  ghost predicate Complete(aid: AssignmentId, xs: seq<Exchange>) {
    Follows(Acking, aid, xs) && !Live(Ends(Acking, aid, xs))
  }

  /** `xs` is `n` turns one after the other, each under a token of its own. */
  ghost predicate Turns(xs: seq<Exchange>, n: nat)
    decreases n
  {
    if n == 0 then xs == []
    else exists m | 0 <= m <= |xs| :: Turns(xs[..m], n - 1) && IsTurn(n - 1, xs[m..])
  }

  lemma TurnsOn(start: seq<Exchange>, log: seq<Exchange>, after: seq<Exchange>, n: nat)
    requires start <= log <= after && Turns(log[|start|..], n) && IsTurn(n, after[|log|..])
    ensures Turns(after[|start|..], n + 1)
  {
    var xs, m := after[|start|..], |log| - |start|;
    assert xs[..m] == log[|start|..] && xs[m..] == after[|log|..];
  }

  lemma IdleTurn(token: Token, xs: seq<Exchange>, outcome: ClaimOutcome)
    requires ClaimExchanges(token, xs, outcome) && !outcome.Assigned?
    ensures IsTurn(token, xs)
  {
    assert xs[..|xs|] == xs;
  }

  lemma WorkingTurn(token: Token, log: seq<Exchange>, claimed: seq<Exchange>, after: seq<Exchange>,
                    aid: AssignmentId, finished: bool)
    requires log <= claimed && ClaimExchanges(token, claimed[|log|..], Assigned(aid))
    requires OnPath(aid, claimed, after, if finished then Done else Dead)
    ensures log <= after && IsTurn(token, after[|log|..])
  {
    var xs, n := after[|log|..], |claimed| - |log|;
    assert xs[..n] == claimed[|log|..] && xs[n..] == after[|claimed|..];
    assert Complete(aid, xs[n..]);
  }

  /** One turn of the loop: claim, and run what was assigned; anything raised is logged and
      swallowed, and then the loop may wait. Heartbeats report all along. */
  method ClaimAndRun(client: ReferenceWorkerClient, token: Token, ghost start: seq<Exchange>, ghost first: nat)
    requires start <= client.env.log && Balanced(client.env.log[|start|..], client.currentLoad)
    requires !client.draining && Honest(start, client.env.log, client.env.beats, first)
    modifies client`currentLoad, client.env
    ensures old(client.env.log) <= client.env.log && IsTurn(token, client.env.log[|old(client.env.log)|..])
    ensures start <= client.env.log && Balanced(client.env.log[|start|..], client.currentLoad)
    ensures old(client.env.beats) <= client.env.beats
    ensures Honest(start, client.env.log, client.env.beats, first)
  {
    hide Balanced, ClaimExchanges, Follows, OnPath, Count, Balance, Flat, Reported, Honest, IsTurn;
    ghost var log, beats, load := client.env.log, client.env.beats, client.currentLoad;
    LoadIsNatural(log[|start|..], load);
    BalancedLoad(log[|start|..], load);
    var outcome := client.ClaimNext(token);
    ghost var claimed, claim := client.env.log, client.env.log[|log|..];
    ClaimIsFlat(token, claim, outcome);
    HonestStretch(start, log, beats, first, claimed, client.env.beats, load);
    Since(start, log, claimed);
    beats := client.env.beats;
    if outcome.Assigned? {
      GrantedBalance(log[|start|..], load, token, claim, outcome);
      var finished := client.RunOne(outcome.aid);
      ghost var session := client.env.log[|claimed|..];
      PathFollows(outcome.aid, claimed, client.env.log, if finished then Done else Dead);
      WorkingTurn(token, log, claimed, client.env.log, outcome.aid, finished);
      SessionIsFlat(outcome.aid, session);
      HonestStretch(start, claimed, beats, first, client.env.log, client.env.beats, load + 1);
      BalancedCycle(log[|start|..], load, token, claim, outcome.aid, session);
      Since(start, claimed, client.env.log);
    } else {
      BalancedClaim(log[|start|..], load, token, claim, outcome);
      IdleTurn(token, claim, outcome);
    }
    beats := client.env.beats;
    BalancedLoad(client.env.log[|start|..], client.currentLoad);
    client.Pulse();
    HonestPause(start, client.env.log, beats, first, client.env.beats, client.currentLoad);
  }

  lemma GrantedBalance(xs: seq<Exchange>, load: int, token: Token, claim: seq<Exchange>, outcome: ClaimOutcome)
    requires load == Balance(xs) && ClaimExchanges(token, claim, outcome) && outcome.Assigned?
    ensures Balance(xs + claim) == load + 1
  {
    ClaimCounts(token, claim, outcome);
    BalanceConcat(xs, claim);
  }

  lemma NothingReported(start: seq<Exchange>, beats: seq<Beat>)
    ensures Honest(start, start, beats, |beats|)
  {
  }

  /** Registers, claims and runs until the stop event is seen after any number of turns, then
      drains and deregisters. `work` is what the turns exchanged, one after the other; meanwhile every heartbeat of the
      concurrent task reported grants less accepted submits at that moment. */
  method RunHttpLoop(env: Environment, turns: nat)
    returns (client: ReferenceWorkerClient, registered: bool, ghost work: seq<Exchange>)
    modifies env
    ensures client.env == env && registered == SuccessStatus(env.replies(|old(env.log)|))
    ensures registered ==> Turns(work, turns)
    ensures Balanced(work, client.currentLoad)
    ensures client.currentLoad == Count(work, IsGrant()) - Count(work, IsReturn()) <==>
      forall x | x in work :: !IsUnreadable()(x)
    ensures var start := old(env.log) + [Exchange(Register, env.replies(|old(env.log)|))];
      && old(env.beats) <= env.beats
      && Honest(start, start + work, env.beats, |old(env.beats)|)
      && if !registered then env.log == start && work == [] && client.currentLoad == 0 && env.beats == old(env.beats)
         else
           var drain := Exchange(Heartbeat(Draining, client.currentLoad), env.replies(|start + work|));
           client.draining && env.log == start + work + [drain] +
             (if SuccessStatus(drain.reply) then [Exchange(Deregister, env.replies(|start + work| + 1))] else [])
  {
    hide Balanced, Honest, Count, IsTurn;
    NothingBalanced();
    client := new ReferenceWorkerClient(env);
    work := [];
    var reply := env.Send(Register);
    registered := SuccessStatus(reply);
    LoadCountsReturnsExactly(work, client.currentLoad);
    ghost var start, first := env.log, |env.beats|;
    NothingReported(start, env.beats);
    assert start[|start|..] == [] && start + work == start;
    if !registered {
      return;
    }
    var turn := 0;
    while turn < turns
      invariant 0 <= turn <= turns
      invariant client.env == env && !client.draining
      invariant start <= env.log && Balanced(env.log[|start|..], client.currentLoad)
      invariant Turns(env.log[|start|..], turn)
      invariant old(env.beats) <= env.beats && Honest(start, env.log, env.beats, first)
      modifies env, client`currentLoad
    {
      ghost var before := env.log;
      ClaimAndRun(client, turn, start, first);
      TurnsOn(start, before, env.log, turn);
      turn := turn + 1;
    }
    work := env.log[|start|..];
    assert env.log == start + work;
    LoadCountsReturnsExactly(work, client.currentLoad);
    var ok := client.Drain();
    if ok {
      var gone := env.Send(Deregister);
    }
  }
}
