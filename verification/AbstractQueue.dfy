/** The queue without its bookkeeping: one table of jobs, each waiting on a page, running for a
    worker, or finished. No counters, no linked pages, no order within a page. */
module AbstractQueue {
  import opened Types
  import opened Arithmetic
  import opened Accounts
  import opened QueueMachine

  datatype Phase =
    | Waiting(page: U64)
    | Running(worker: Pubkey, since: I64)
    | Succeeded(worker: Pubkey, since: I64, at: I64, result: Option<Bytes>)
    | Exhausted(worker: Pubkey, since: I64, at: I64)
    | Cancelled(at: I64)

  datatype AJob = AJob(
    jobType: Bytes, payload: Bytes, priority: U8, createdAt: I64,
    executeAfter: I64, attempts: U8, errorMessage: Option<Bytes>, phase: Phase)

  datatype AState = AState(
    authority: Pubkey, name: Bytes, createdAt: I64, maxRetries: U8, paused: bool,
    jobs: seq<AJob>, head: U64, tail: U64)

  /** How many jobs wait on page p. */
  ghost function Occupancy(a: AState, p: U64): nat {
    |set i: U64 | i < |a.jobs| && a.jobs[i].phase == Waiting(p)|
  }

  ghost function AStep(a: AState, c: Call): Result<AState> {
    match c.op
    case GrowIndex(signer, newSeq) =>
      if newSeq <= a.tail then Err(AccountInUse)
      else if signer != a.authority then Err(Unauthorized)
      else if newSeq != a.tail + 1 then Err(Overflow)
      else if Occupancy(a, a.tail) < MAX_INDEX_ENTRIES then Err(IndexNotFull)
      else Ok(a.(tail := newSeq))
    case AdvanceHead =>
      if Occupancy(a, a.head) > 0 then Err(HeadPageNotEmpty)
      else if a.head >= a.tail then Err(NoSuccessorPage)
      else Ok(a.(head := a.head + 1))
    case EnqueueJob(payload, jobType, priority, executeAfter) =>
      if |payload| > 512 then Err(PayloadTooLarge)
      else if !(0 < |jobType| <= 32) then Err(NameTooLong)
      else if priority > 2 then Err(InvalidPriority)
      else if a.paused then Err(QueuePaused)
      else if Occupancy(a, a.tail) >= MAX_INDEX_ENTRIES then Err(IndexFull)
      else if |a.jobs| >= U64_MAX then Err(QueueFull)
      else
        var due := if executeAfter == 0 then c.now else executeAfter;
        Ok(a.(jobs := a.jobs + [AJob(jobType, payload, priority, c.now, due, 0, None, Waiting(a.tail))]))
    case ClaimJob(id, page, worker) =>
      if id >= |a.jobs| || page > a.tail then Err(AccountNotInitialized)
      else if !a.jobs[id].phase.Waiting? then Err(JobNotPending)
      else if c.now < a.jobs[id].executeAfter then Err(JobNotReady)
      else if a.jobs[id].phase.page != page then Err(JobNotInIndex)
      else Ok(SetPhase(a, id, Running(worker, c.now), NextAttempt(a.jobs[id].attempts)))
    case CompleteJob(id, worker, result) =>
      if id >= |a.jobs| then Err(AccountNotInitialized)
      else if !a.jobs[id].phase.Running? then Err(JobNotProcessing)
      else if a.jobs[id].phase.worker != worker then Err(Unauthorized)
      else if result.Some? && |result.value| > 128 then Err(ResultTooLarge)
      else Ok(SetPhase(a, id, Succeeded(worker, a.jobs[id].phase.since, c.now, result), a.jobs[id].attempts))
    case FailJob(id, page, worker, message, retryAfter) =>
      if id >= |a.jobs| || page > a.tail then Err(AccountNotInitialized)
      else if !a.jobs[id].phase.Running? then Err(JobNotProcessing)
      else if a.jobs[id].phase.worker != worker then Err(Unauthorized)
      else if |message| > 128 then Err(ResultTooLarge)
      else
        var j := a.jobs[id].(errorMessage := Some(message));
        if j.attempts >= a.maxRetries then
          Ok(a.(jobs := a.jobs[id := j.(phase := Exhausted(worker, j.phase.since, c.now))]))
        else if Occupancy(a, page) >= MAX_INDEX_ENTRIES then Err(IndexFull)
        else
          var due := WrappingAdd(c.now, Backoff(retryAfter, j.attempts));
          Ok(a.(jobs := a.jobs[id := j.(phase := Waiting(page), executeAfter := due)]))
    case CancelJob(id, page, signer) =>
      if id >= |a.jobs| || page > a.tail then Err(AccountNotInitialized)
      else if signer != a.authority then Err(Unauthorized)
      else if !a.jobs[id].phase.Waiting? && !a.jobs[id].phase.Running? then Err(CannotCancel)
      else if a.jobs[id].phase != Waiting(page) then Err(JobNotInIndex)
      else Ok(SetPhase(a, id, Phase.Cancelled(c.now), a.jobs[id].attempts))
    case SetQueuePaused(signer, paused) =>
      if signer != a.authority then Err(Unauthorized) else Ok(a.(paused := paused))
  }

  function SetPhase(a: AState, id: U64, phase: Phase, attempts: U8): AState
    requires id < |a.jobs|
  {
    a.(jobs := a.jobs[id := a.jobs[id].(phase := phase, attempts := attempts)])
  }
}
