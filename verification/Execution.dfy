/** Running a handler on copies of the accounts: what it leaves in them is kept only if it passes. */
module Execution {
  import opened Types
  import opened Accounts
  import H = Handlers
  import P = Program

  method InitializeQueue(authority: Pubkey, name: Bytes, maxRetries: U8, now: I64)
    returns (r: Result<(QueueData, HeadData, PageData)>)
    ensures r == H.InitializeQueue(authority, name, maxRetries, now)
  {
    var key := QueuePda(authority, name);
    var queue := new P.Queue.Load(QueueData(key, [], 0, 0, 0, 0, 0, false, 0));
    var head := new P.QueueHead.Load(HeadData(key, 0, 0, 0));
    var page := new P.JobIndex.Load(PageData(key, 0, 0, []));
    var outcome := P.InitializeQueue(key, queue, head, page, authority, name, maxRetries, now);
    match outcome
    case Pass => r := Ok((queue.Data(), head.Data(), page.Data()));
    case Fail(e) => r := Err(e);
  }

  method GrowIndex(key: Pubkey, q: QueueData, h: HeadData, full: PageData, signer: Pubkey, newSeq: U64)
    returns (r: Result<(HeadData, PageData, PageData)>)
    requires |full.jobIds| <= MAX_INDEX_ENTRIES
    ensures r == H.GrowIndex(key, q, h, full, signer, newSeq)
  {
    var queue := new P.Queue.Load(q);
    var head := new P.QueueHead.Load(h);
    var tail := new P.JobIndex.Load(full);
    var newTail := new P.JobIndex.Load(PageData(key, 0, 0, []));
    var outcome := P.GrowIndex(key, queue, head, tail, newTail, signer, newSeq);
    match outcome
    case Pass => r := Ok((head.Data(), tail.Data(), newTail.Data()));
    case Fail(e) => r := Err(e);
  }

  method AdvanceHead(h: HeadData, p: PageData) returns (r: Result<HeadData>)
    requires |p.jobIds| <= MAX_INDEX_ENTRIES
    ensures r == H.AdvanceHead(h, p)
  {
    var head := new P.QueueHead.Load(h);
    var page := new P.JobIndex.Load(p);
    var outcome := P.AdvanceHead(head, page);
    match outcome
    case Pass => r := Ok(head.Data());
    case Fail(e) => r := Err(e);
  }

  method EnqueueJob(key: Pubkey, q: QueueData, h: HeadData, p: PageData, payload: Bytes, jobType: Bytes,
                    priority: U8, executeAfter: I64, now: I64)
    returns (r: Result<(QueueData, HeadData, PageData, JobData)>)
    requires |p.jobIds| <= MAX_INDEX_ENTRIES
    ensures r == H.EnqueueJob(key, q, h, p, payload, jobType, priority, executeAfter, now)
  {
    var queue := new P.Queue.Load(q);
    var head := new P.QueueHead.Load(h);
    var tail := new P.JobIndex.Load(p);
    var job := new P.Job.Load(JobData(key, 0, [], [], Pending, 0, 0, 0, 0, 0, None, None, None, None, None));
    var outcome := P.EnqueueJob(key, queue, job, head, tail, payload, jobType, priority, executeAfter, now);
    match outcome
    case Pass => r := Ok((queue.Data(), head.Data(), tail.Data(), job.Data()));
    case Fail(e) => r := Err(e);
  }

  method ClaimJob(j: JobData, p: PageData, worker: Pubkey, now: I64) returns (r: Result<(JobData, PageData)>)
    requires |p.jobIds| <= MAX_INDEX_ENTRIES
    ensures r == H.ClaimJob(j, p, worker, now)
  {
    var job := new P.Job.Load(j);
    var page := new P.JobIndex.Load(p);
    var outcome := P.ClaimJob(job, page, worker, now);
    match outcome
    case Pass => r := Ok((job.Data(), page.Data()));
    case Fail(e) => r := Err(e);
  }

  method CompleteJob(q: QueueData, j: JobData, worker: Pubkey, result: Option<Bytes>, now: I64)
    returns (r: Result<(QueueData, JobData)>)
    ensures r == H.CompleteJob(q, j, worker, result, now)
  {
    var queue := new P.Queue.Load(q);
    var job := new P.Job.Load(j);
    var outcome := P.CompleteJob(queue, job, worker, result, now);
    match outcome
    case Pass => r := Ok((queue.Data(), job.Data()));
    case Fail(e) => r := Err(e);
  }

  method FailJob(q: QueueData, j: JobData, p: PageData, worker: Pubkey, message: Bytes, retryAfter: I64, now: I64)
    returns (r: Result<(QueueData, JobData, PageData)>)
    requires |p.jobIds| <= MAX_INDEX_ENTRIES
    ensures r == H.FailJob(q, j, p, worker, message, retryAfter, now)
  {
    var queue := new P.Queue.Load(q);
    var job := new P.Job.Load(j);
    var page := new P.JobIndex.Load(p);
    var outcome := P.FailJob(queue, job, page, worker, message, retryAfter, now);
    match outcome
    case Pass => r := Ok((queue.Data(), job.Data(), page.Data()));
    case Fail(e) => r := Err(e);
  }

  method CancelJob(q: QueueData, j: JobData, p: PageData, signer: Pubkey, now: I64)
    returns (r: Result<(QueueData, JobData, PageData)>)
    requires |p.jobIds| <= MAX_INDEX_ENTRIES
    ensures r == H.CancelJob(q, j, p, signer, now)
  {
    var queue := new P.Queue.Load(q);
    var job := new P.Job.Load(j);
    var page := new P.JobIndex.Load(p);
    var outcome := P.CancelJob(queue, job, page, signer, now);
    match outcome
    case Pass => r := Ok((queue.Data(), job.Data(), page.Data()));
    case Fail(e) => r := Err(e);
  }

  method SetQueuePaused(q: QueueData, signer: Pubkey, paused: bool) returns (r: Result<QueueData>)
    ensures r == H.SetQueuePaused(q, signer, paused)
  {
    var queue := new P.Queue.Load(q);
    var outcome := P.SetQueuePaused(queue, signer, paused);
    match outcome
    case Pass => r := Ok(queue.Data());
    case Fail(e) => r := Err(e);
  }
}
