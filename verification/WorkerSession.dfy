/** The worker-side half of one claimed assignment: ack, renew, execute, submit.
    The concurrent protocol (EffectProtocol) and the imperative client (WorkerClient)
    both follow this one automaton. */
module WorkerSession {
  import opened Foundations

  /** The operation the session is waiting on. */
  datatype Pc = Acking | Renewing | Executing | Submitting(success: bool) | Done | Dead

  /** What that operation came back with. `Faulted` is any exception, or the process dying. */
  datatype Event =
    | Acked(created: Option<bool>)
    | Renewed
    | Executed(success: bool)
    | Submitted
    | Faulted

  /** How many requests one claim_next call sends at most. */
  const CLAIM_NETWORK_RETRY_ATTEMPTS := 3

  predicate Live(pc: Pc) {
    pc != Done && pc != Dead
  }

  predicate Accepts(pc: Pc, ev: Event) {
    match ev
    case Acked(_) => pc == Acking
    case Renewed => pc == Renewing
    case Executed(_) => pc == Executing
    case Submitted => pc.Submitting?
    case Faulted => Live(pc)
  }

  /** Only an explicit "not created" makes the client refuse; a missing field does not. */
  function Advance(pc: Pc, ev: Event): Pc
    requires Accepts(pc, ev)
  {
    match ev
    case Acked(created) => if created == Some(false) then Submitting(false) else Renewing
    case Renewed => Executing
    case Executed(success) => Submitting(success)
    case Submitted => Done
    case Faulted => Dead
  }
}
