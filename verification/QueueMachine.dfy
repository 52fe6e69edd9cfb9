/** One queue as a state machine: any signer may submit any call at any clock value, and a call
    either commits as a whole or leaves every account as it was. */
module QueueMachine {
  import opened Types
  import opened Accounts
  import H = Handlers

  /** Every account of one queue. Pages are keyed by sequence number, jobs by id. */
  datatype QState = QState(
    key: Pubkey, queue: QueueData, head: HeadData,
    pages: map<U64, PageData>, jobs: map<U64, JobData>)

  datatype Op =
    | GrowIndex(signer: Pubkey, newSeq: U64)
    | AdvanceHead
    | EnqueueJob(payload: Bytes, jobType: Bytes, priority: U8, executeAfter: I64)
    | ClaimJob(id: U64, page: U64, worker: Pubkey)
    | CompleteJob(id: U64, worker: Pubkey, result: Option<Bytes>)
    | FailJob(id: U64, page: U64, worker: Pubkey, message: Bytes, retryAfter: I64)
    | CancelJob(id: U64, page: U64, signer: Pubkey)
    | SetQueuePaused(signer: Pubkey, paused: bool)

  datatype Call = Call(op: Op, now: I64)

  /** The state right after a successful initialize_queue. */
  ghost predicate IsGenesis(s: QState) {
    && s.key == QueuePda(s.queue.authority, s.queue.name)
    && 0 < |s.queue.name| <= 32 && s.queue.maxRetries <= 10
    && s.queue.jobCount == s.queue.pendingCount == s.queue.processedCount == s.queue.failedCount == 0
    && !s.queue.paused
    && s.head == HeadData(s.queue.authority, 0, 0, 0)
    && s.pages == map[0 := PageData(s.key, 0, 0, [])]
    && s.jobs == map[]
  }

  function Step(s: QState, c: Call): Result<QState> {
    match c.op
    case GrowIndex(signer, newSeq) => StepGrow(s, signer, newSeq)
    case AdvanceHead => StepAdvance(s)
    case EnqueueJob(payload, jobType, priority, executeAfter) =>
      StepEnqueue(s, payload, jobType, priority, executeAfter, c.now)
    case ClaimJob(id, page, worker) => StepClaim(s, id, page, worker, c.now)
    case CompleteJob(id, worker, result) => StepComplete(s, id, worker, result, c.now)
    case FailJob(id, page, worker, message, retryAfter) =>
      StepFail(s, id, page, worker, message, retryAfter, c.now)
    case CancelJob(id, page, signer) => StepCancel(s, id, page, signer, c.now)
    case SetQueuePaused(signer, paused) => StepSetPaused(s, signer, paused)
  }

  function StepGrow(s: QState, signer: Pubkey, newSeq: U64): Result<QState> {
    var tail := s.head.tailIndexSeq;
    if tail !in s.pages then Err(AccountNotInitialized)
    else if newSeq in s.pages then Err(AccountInUse)
    else
      var (h, full, next) :- H.GrowIndex(s.key, s.queue, s.head, s.pages[tail], signer, newSeq);
      Ok(s.(head := h, pages := s.pages[tail := full][newSeq := next]))
  }

  function StepAdvance(s: QState): Result<QState> {
    var p := s.head.headIndexSeq;
    if p !in s.pages then Err(AccountNotInitialized)
    else
      var h :- H.AdvanceHead(s.head, s.pages[p]);
      Ok(s.(head := h))
  }

  function StepEnqueue(s: QState, payload: Bytes, jobType: Bytes, priority: U8, executeAfter: I64,
                       now: I64): Result<QState>
  {
    var tail := s.head.tailIndexSeq;
    if s.queue.jobCount in s.jobs then Err(AccountInUse)
    else if tail !in s.pages then Err(AccountNotInitialized)
    else
      var (q, h, p, j) :- H.EnqueueJob(s.key, s.queue, s.head, s.pages[tail],
                                       payload, jobType, priority, executeAfter, now);
      Ok(s.(queue := q, head := h, pages := s.pages[tail := p], jobs := s.jobs[s.queue.jobCount := j]))
  }

  function StepClaim(s: QState, id: U64, page: U64, worker: Pubkey, now: I64): Result<QState> {
    if id !in s.jobs || page !in s.pages then Err(AccountNotInitialized)
    else
      var (j, p) :- H.ClaimJob(s.jobs[id], s.pages[page], worker, now);
      Ok(s.(jobs := s.jobs[id := j], pages := s.pages[page := p]))
  }

  function StepComplete(s: QState, id: U64, worker: Pubkey, result: Option<Bytes>, now: I64): Result<QState> {
    if id !in s.jobs then Err(AccountNotInitialized)
    else
      var (q, j) :- H.CompleteJob(s.queue, s.jobs[id], worker, result, now);
      Ok(s.(queue := q, jobs := s.jobs[id := j]))
  }

  function StepFail(s: QState, id: U64, page: U64, worker: Pubkey, message: Bytes, retryAfter: I64,
                    now: I64): Result<QState>
  {
    if id !in s.jobs || page !in s.pages then Err(AccountNotInitialized)
    else
      var (q, j, p) :- H.FailJob(s.queue, s.jobs[id], s.pages[page], worker, message, retryAfter, now);
      Ok(s.(queue := q, jobs := s.jobs[id := j], pages := s.pages[page := p]))
  }

  function StepCancel(s: QState, id: U64, page: U64, signer: Pubkey, now: I64): Result<QState> {
    if id !in s.jobs || page !in s.pages then Err(AccountNotInitialized)
    else
      var (q, j, p) :- H.CancelJob(s.queue, s.jobs[id], s.pages[page], signer, now);
      Ok(s.(queue := q, jobs := s.jobs[id := j], pages := s.pages[page := p]))
  }

  function StepSetPaused(s: QState, signer: Pubkey, paused: bool): Result<QState> {
    var q :- H.SetQueuePaused(s.queue, signer, paused);
    Ok(s.(queue := q))
  }

  /** The state after a sequence of calls that all commit; the error of the first that does not.
      A call that fails changes nothing, so these are all the states there are. */
  function After(g: QState, calls: seq<Call>): Result<QState> {
    if calls == [] then Ok(g)
    else
      var s :- After(g, calls[..|calls| - 1]);
      Step(s, calls[|calls| - 1])
  }
}
