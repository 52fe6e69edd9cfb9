/** The effect of each instruction on the accounts it is given: either the new value of every
    account it writes, or the error it returns. */
module Handlers {
  import opened Types
  import opened Arithmetic
  import opened Accounts

  function InitializeQueue(authority: Pubkey, name: Bytes, maxRetries: U8, now: I64)
    : Result<(QueueData, HeadData, PageData)>
  {
    if !(0 < |name| <= 32) then Err(NameTooLong)
    else if maxRetries > 10 then Err(InvalidRetries)
    else Ok((QueueData(authority, name, 0, 0, 0, 0, maxRetries, false, now),
             HeadData(authority, 0, 0, 0),
             PageData(QueuePda(authority, name), 0, 0, [])))
  }

  /** Results: the head record, the old tail page and the new tail page. */
  function GrowIndex(key: Pubkey, queue: QueueData, head: HeadData, tail: PageData,
                     signer: Pubkey, newSeq: U64): Result<(HeadData, PageData, PageData)>
  {
    if signer != queue.authority then Err(Unauthorized)
    else if head.tailIndexSeq == U64_MAX then Err(Overflow)
    else if newSeq != head.tailIndexSeq + 1 then Err(Overflow)
    else if !IsFull(tail.jobIds) then Err(IndexNotFull)
    else Ok((head.(tailIndexSeq := newSeq), tail.(nextSeq := newSeq), PageData(key, newSeq, 0, [])))
  }

  function AdvanceHead(head: HeadData, page: PageData): Result<HeadData> {
    if page.jobIds != [] then Err(HeadPageNotEmpty)
    else if page.nextSeq == 0 && head.headIndexSeq == head.tailIndexSeq then Err(NoSuccessorPage)
    else Ok(head.(headIndexSeq := page.nextSeq))
  }

  function NewJob(key: Pubkey, queue: QueueData, payload: Bytes, jobType: Bytes, priority: U8,
                  executeAfter: I64, now: I64): JobData
  {
    JobData(key, queue.jobCount, jobType, payload, Pending, priority, now,
            if executeAfter == 0 then now else executeAfter,
            0, queue.maxRetries, None, None, None, None, None)
  }

  /** Results: the queue, its head record, the tail page and the new job. */
  function EnqueueJob(key: Pubkey, queue: QueueData, head: HeadData, tail: PageData,
                      payload: Bytes, jobType: Bytes, priority: U8, executeAfter: I64, now: I64)
    : Result<(QueueData, HeadData, PageData, JobData)>
  {
    if |payload| > 512 then Err(PayloadTooLarge)
    else if !(0 < |jobType| <= 32) then Err(NameTooLong)
    else if priority > 2 then Err(InvalidPriority)
    else if queue.paused then Err(QueuePaused)
    else if IsFull(tail.jobIds) then Err(IndexFull)
    else if queue.jobCount == U64_MAX || queue.pendingCount == U64_MAX then Err(QueueFull)
    else
      var ids :- PushJob(tail.jobIds, queue.jobCount);
      if head.totalJobs == U64_MAX then Err(Overflow)
      else Ok((queue.(jobCount := queue.jobCount + 1, pendingCount := queue.pendingCount + 1),
               head.(totalJobs := head.totalJobs + 1),
               tail.(jobIds := ids),
               NewJob(key, queue, payload, jobType, priority, executeAfter, now)))
  }

  function ClaimJob(job: JobData, page: PageData, worker: Pubkey, now: I64): Result<(JobData, PageData)> {
    if job.status != Pending then Err(JobNotPending)
    else if now < job.executeAfter then Err(JobNotReady)
    else
      var ids :- RemoveJob(page.jobIds, job.jobId);
      Ok((job.(status := Processing, worker := Some(worker), startedAt := Some(now),
               attempts := NextAttempt(job.attempts)),
          page.(jobIds := ids)))
  }

  function CompleteJob(queue: QueueData, job: JobData, worker: Pubkey, result: Option<Bytes>, now: I64)
    : Result<(QueueData, JobData)>
  {
    if job.status != Processing then Err(JobNotProcessing)
    else if job.worker != Some(worker) then Err(Unauthorized)
    else if result.Some? && |result.value| > 128 then Err(ResultTooLarge)
    else if queue.processedCount == U64_MAX then Err(Overflow)
    else Ok((queue.(pendingCount := SaturatingSubOne(queue.pendingCount),
                    processedCount := queue.processedCount + 1),
             job.(status := Completed, completedAt := Some(now), result := result)))
  }

  /** Results: the queue, the job and the page named for the retry. */
  function FailJob(queue: QueueData, job: JobData, page: PageData, worker: Pubkey,
                   message: Bytes, retryAfter: I64, now: I64): Result<(QueueData, JobData, PageData)>
  {
    if job.status != Processing then Err(JobNotProcessing)
    else if job.worker != Some(worker) then Err(Unauthorized)
    else if |message| > 128 then Err(ResultTooLarge)
    else if job.attempts < job.maxRetries then
      var ids :- PushJob(page.jobIds, job.jobId);
      Ok((queue,
          job.(status := Pending, worker := None, startedAt := None, errorMessage := Some(message),
               executeAfter := WrappingAdd(now, Backoff(retryAfter, job.attempts))),
          page.(jobIds := ids)))
    else if queue.failedCount == U64_MAX then Err(Overflow)
    else Ok((queue.(pendingCount := SaturatingSubOne(queue.pendingCount),
                    failedCount := queue.failedCount + 1),
             job.(status := Failed, completedAt := Some(now), errorMessage := Some(message)),
             page))
  }

  /** Results: the queue, the job and the page the id is taken from. */
  function CancelJob(queue: QueueData, job: JobData, page: PageData, signer: Pubkey, now: I64)
    : Result<(QueueData, JobData, PageData)>
  {
    if signer != queue.authority then Err(Unauthorized)
    else if job.status != Pending && job.status != Processing then Err(CannotCancel)
    else
      var ids :- RemoveJob(page.jobIds, job.jobId);
      Ok((queue.(pendingCount := SaturatingSubOne(queue.pendingCount)),
          job.(status := Cancelled, completedAt := Some(now)),
          page.(jobIds := ids)))
  }

  function SetQueuePaused(queue: QueueData, signer: Pubkey, paused: bool): Result<QueueData> {
    if signer != queue.authority then Err(Unauthorized) else Ok(queue.(paused := paused))
  }

  // ---- Branches that no reachable queue takes ----

  /** The two halves of advance_head's guard, on any accounts whatever. */
  lemma AdvanceHeadExact(head: HeadData, page: PageData)
    ensures AdvanceHead(head, page) == Err(HeadPageNotEmpty) <==> page.jobIds != []
    ensures AdvanceHead(head, page) == Err(NoSuccessorPage) <==>
      page.jobIds == [] && page.nextSeq == 0 && head.headIndexSeq == head.tailIndexSeq
    ensures AdvanceHead(head, page).Ok? ==>
      AdvanceHead(head, page).value == HeadData(head.authority, page.nextSeq, head.tailIndexSeq, head.totalJobs)
  {
  }

  /** Which counter at its limit is reported how, once all other checks have passed. */
  lemma EnqueueLimits(key: Pubkey, queue: QueueData, head: HeadData, tail: PageData, payload: Bytes,
                      jobType: Bytes, priority: U8, executeAfter: I64, now: I64)
    requires |payload| <= 512 && 1 <= |jobType| <= 32 && priority <= 2 && !queue.paused && |tail.jobIds| < 256
    ensures var r := EnqueueJob(key, queue, head, tail, payload, jobType, priority, executeAfter, now);
      && (r == Err(QueueFull) <==> queue.jobCount == U64_MAX || queue.pendingCount == U64_MAX)
      && (r == Err(Overflow) <==>
            queue.jobCount < U64_MAX && queue.pendingCount < U64_MAX && head.totalJobs == U64_MAX)
  {
  }

  lemma ClosingLimits(queue: QueueData, job: JobData, page: PageData, worker: Pubkey, message: Bytes,
                      retryAfter: I64, now: I64)
    requires job.status == Processing && job.worker == Some(worker) && |message| <= 128
    ensures CompleteJob(queue, job, worker, None, now) == Err(Overflow) <==> queue.processedCount == U64_MAX
    ensures FailJob(queue, job, page, worker, message, retryAfter, now) == Err(Overflow) <==>
      job.attempts >= job.maxRetries && queue.failedCount == U64_MAX
  {
  }

  lemma GrowLimits(key: Pubkey, queue: QueueData, head: HeadData, tail: PageData, signer: Pubkey, newSeq: U64)
    requires signer == queue.authority
    ensures GrowIndex(key, queue, head, tail, signer, newSeq) == Err(Overflow) <==> newSeq != head.tailIndexSeq + 1
  {
  }
}
