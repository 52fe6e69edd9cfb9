/** The program's accounts as the mutable records an instruction works on, and the instruction
    handlers that write them field by field. A handler that fails may leave the records it was
    given half-written; what happens to them then is decided by the ledger. */
module Program {
  import opened Types
  import opened Arithmetic
  import opened Accounts
  import H = Handlers

  class Queue {
    var authority: Pubkey
    var name: Bytes
    var jobCount: U64
    var pendingCount: U64
    var processedCount: U64
    var failedCount: U64
    var maxRetries: U8
    var paused: bool
    var createdAt: I64

    constructor Load(d: QueueData)
      ensures Data() == d
    {
      authority, name, jobCount, pendingCount := d.authority, d.name, d.jobCount, d.pendingCount;
      processedCount, failedCount := d.processedCount, d.failedCount;
      maxRetries, paused, createdAt := d.maxRetries, d.paused, d.createdAt;
    }

    function Data(): QueueData
      reads this
    {
      QueueData(authority, name, jobCount, pendingCount, processedCount, failedCount,
                maxRetries, paused, createdAt)
    }
  }

  class QueueHead {
    var authority: Pubkey
    var headIndexSeq: U64
    var tailIndexSeq: U64
    var totalJobs: U64

    constructor Load(d: HeadData)
      ensures Data() == d
    {
      authority, headIndexSeq, tailIndexSeq, totalJobs := d.authority, d.headIndexSeq, d.tailIndexSeq, d.totalJobs;
    }

    function Data(): HeadData
      reads this
    {
      HeadData(authority, headIndexSeq, tailIndexSeq, totalJobs)
    }
  }

  class Job {
    var queue: Pubkey
    var jobId: U64
    var jobType: Bytes
    var payload: Bytes
    var status: JobStatus
    var priority: U8
    var createdAt: I64
    var executeAfter: I64
    var attempts: U8
    var maxRetries: U8
    var worker: Option<Pubkey>
    var startedAt: Option<I64>
    var completedAt: Option<I64>
    var result: Option<Bytes>
    var errorMessage: Option<Bytes>

    constructor Load(d: JobData)
      ensures Data() == d
    {
      queue, jobId, jobType, payload, status := d.queue, d.jobId, d.jobType, d.payload, d.status;
      priority, createdAt, executeAfter := d.priority, d.createdAt, d.executeAfter;
      attempts, maxRetries, worker := d.attempts, d.maxRetries, d.worker;
      startedAt, completedAt := d.startedAt, d.completedAt;
      result, errorMessage := d.result, d.errorMessage;
    }

    function Data(): JobData
      reads this
    {
      JobData(queue, jobId, jobType, payload, status, priority, createdAt, executeAfter, attempts,
              maxRetries, worker, startedAt, completedAt, result, errorMessage)
    }

    /** Fill in a newly created account: what the job is ... */
    method Describe(key: Pubkey, id: U64, jobType: Bytes, payload: Bytes, priority: U8, now: I64, maxRetries: U8)
      modifies this
      ensures Data() == old(Data()).(queue := key, jobId := id, jobType := jobType, payload := payload,
                                     priority := priority, createdAt := now, maxRetries := maxRetries)
    {
      this.queue := key;
      this.jobId := id;
      this.jobType := jobType;
      this.payload := payload;
      this.priority := priority;
      this.createdAt := now;
      this.maxRetries := maxRetries;
    }

    /** ... and that nothing has happened to it yet. */
    method Begin(scheduledAt: I64)
      modifies this
      ensures Data() == old(Data()).(status := Pending, executeAfter := scheduledAt, attempts := 0,
                                     worker := None, startedAt := None, completedAt := None,
                                     result := None, errorMessage := None)
    {
      status := Pending;
      executeAfter := scheduledAt;
      attempts := 0;
      worker := None;
      startedAt := None;
      completedAt := None;
      result := None;
      errorMessage := None;
    }

    /** Release the lock and make the job pending again from the given time on. */
    method Release(dueAt: I64)
      modifies this
      ensures Data() == old(Data()).(status := Pending, worker := None, startedAt := None, executeAfter := dueAt)
    {
      status := Pending;
      worker := None;
      startedAt := None;
      executeAfter := dueAt;
    }

    /** Out of attempts: the job is a dead letter. */
    method Bury(now: I64)
      modifies this
      ensures Data() == old(Data()).(status := Failed, completedAt := Some(now))
    {
      status := Failed;
      completedAt := Some(now);
    }
  }

  /** One index page: a buffer of fixed capacity, of which the first len entries are in use. */
  class JobIndex {
    var queue: Pubkey
    var pageSeq: U64
    var nextSeq: U64
    const jobIds: array<U64>
    var len: nat

    ghost predicate Valid()
      reads this
    {
      jobIds.Length == MAX_INDEX_ENTRIES && len <= MAX_INDEX_ENTRIES
    }

    function Ids(): seq<U64>
      requires len <= jobIds.Length
      reads this, jobIds
    {
      jobIds[..len]
    }

    function Data(): PageData
      requires len <= jobIds.Length
      reads this, jobIds
    {
      PageData(queue, pageSeq, nextSeq, Ids())
    }

    constructor Load(d: PageData)
      requires |d.jobIds| <= MAX_INDEX_ENTRIES
      ensures Valid() && Data() == d && fresh(jobIds)
    {
      queue, pageSeq, nextSeq, len := d.queue, d.pageSeq, d.nextSeq, |d.jobIds|;
      jobIds := new U64[MAX_INDEX_ENTRIES](k => if 0 <= k < |d.jobIds| then d.jobIds[k] else 0);
      new;
      assert jobIds[..len] == d.jobIds;
    }

    predicate IsFull()
      reads this
    {
      len >= MAX_INDEX_ENTRIES
    }

    predicate IsEmpty()
      reads this
    {
      len == 0
    }

    method PushJob(id: U64) returns (r: Outcome)
      requires Valid()
      modifies this`len, jobIds
      ensures Valid()
      ensures match Accounts.PushJob(old(Ids()), id)
              case Ok(ids) => r == Pass && Ids() == ids
              case Err(e) => r == Fail(e) && Ids() == old(Ids())
    {
      if IsFull() {
        return Fail(IndexFull);
      }
      jobIds[len] := id;
      len := len + 1;
      return Pass;
    }

    /** Search for the first occurrence, then overwrite it with the last entry. */
    method RemoveJob(id: U64) returns (r: Outcome)
      requires Valid()
      modifies this`len, jobIds
      ensures Valid()
      ensures match Accounts.RemoveJob(old(Ids()), id)
              case Ok(ids) => r == Pass && Ids() == ids
              case Err(e) => r == Fail(e) && Ids() == old(Ids())
    {
      ghost var was := Ids();
      var pos := 0;
      while pos < len && jobIds[pos] != id
        invariant pos <= len && id !in was[..pos]
      {
        pos := pos + 1;
      }
      if pos == len {
        assert was[..pos] == was;
        return Fail(JobNotInIndex);
      }
      FirstOccurrence(was, id, pos);
      jobIds[pos] := jobIds[len - 1];
      len := len - 1;
      assert Ids() == SwapRemove(was, pos);
      return Pass;
    }
  }

  lemma FirstOccurrence(ids: seq<U64>, id: U64, pos: nat)
    requires pos < |ids| && ids[pos] == id && id !in ids[..pos]
    ensures id in ids && Position(ids, id) == pos
  {
  }

  // ---- Instruction handlers ----

  method InitializeQueue(key: Pubkey, queue: Queue, head: QueueHead, page: JobIndex,
                         authority: Pubkey, name: Bytes, maxRetries: U8, now: I64) returns (r: Outcome)
    requires page.Valid() && key == QueuePda(authority, name)
    modifies queue, head, page
    ensures page.Valid()
    ensures match H.InitializeQueue(authority, name, maxRetries, now)
            case Ok((q, h, p)) => r == Pass && queue.Data() == q && head.Data() == h && page.Data() == p
            case Err(e) => r == Fail(e)
  {
    if !(|name| > 0 && |name| <= 32) { return Fail(NameTooLong); }
    if maxRetries > 10 { return Fail(InvalidRetries); }
    queue.authority := authority;
    queue.name := name;
    queue.jobCount := 0;
    queue.pendingCount := 0;
    queue.processedCount := 0;
    queue.failedCount := 0;
    queue.maxRetries := maxRetries;
    queue.paused := false;
    queue.createdAt := now;
    head.authority := authority;
    head.headIndexSeq := 0;
    head.tailIndexSeq := 0;
    head.totalJobs := 0;
    page.queue := key;
    page.pageSeq := 0;
    page.nextSeq := 0;
    page.len := 0;
    return Pass;
  }

  method GrowIndex(key: Pubkey, queue: Queue, head: QueueHead, tail: JobIndex, newTail: JobIndex,
                   signer: Pubkey, newSeq: U64) returns (r: Outcome)
    requires tail.Valid() && newTail.Valid() && tail != newTail
    modifies head, tail`nextSeq, newTail
    ensures tail.Valid() && newTail.Valid()
    ensures match H.GrowIndex(key, queue.Data(), old(head.Data()), old(tail.Data()), signer, newSeq)
            case Ok((h, full, next)) =>
              r == Pass && head.Data() == h && tail.Data() == full && newTail.Data() == next
            case Err(e) => r == Fail(e)
  {
    if signer != queue.authority { return Fail(Unauthorized); }
    var currentTailSeq := head.tailIndexSeq;
    if currentTailSeq == U64_MAX { return Fail(Overflow); }
    if newSeq != currentTailSeq + 1 { return Fail(Overflow); }
    if !tail.IsFull() { return Fail(IndexNotFull); }
    tail.nextSeq := newSeq;
    newTail.queue := key;
    newTail.pageSeq := newSeq;
    newTail.nextSeq := 0;
    newTail.len := 0;
    head.tailIndexSeq := newSeq;
    return Pass;
  }

  method AdvanceHead(head: QueueHead, page: JobIndex) returns (r: Outcome)
    requires page.Valid()
    modifies head
    ensures match H.AdvanceHead(old(head.Data()), page.Data())
            case Ok(h) => r == Pass && head.Data() == h
            case Err(e) => r == Fail(e)
  {
    if !page.IsEmpty() { return Fail(HeadPageNotEmpty); }
    if !(page.nextSeq != 0 || head.headIndexSeq != head.tailIndexSeq) { return Fail(NoSuccessorPage); }
    head.headIndexSeq := page.nextSeq;
    return Pass;
  }

  method EnqueueJob(key: Pubkey, queue: Queue, job: Job, head: QueueHead, tail: JobIndex,
                    payload: Bytes, jobType: Bytes, priority: U8, executeAfter: I64, now: I64)
    returns (r: Outcome)
    requires tail.Valid()
    modifies queue, job, head, tail`len, tail.jobIds
    ensures tail.Valid()
    ensures match H.EnqueueJob(key, old(queue.Data()), old(head.Data()), old(tail.Data()),
                               payload, jobType, priority, executeAfter, now)
            case Ok((q, h, p, j)) =>
              r == Pass && queue.Data() == q && head.Data() == h && tail.Data() == p && job.Data() == j
            case Err(e) => r == Fail(e)
  {
    if |payload| > 512 { return Fail(PayloadTooLarge); }
    if !(|jobType| > 0 && |jobType| <= 32) { return Fail(NameTooLong); }
    if priority > 2 { return Fail(InvalidPriority); }
    if queue.paused { return Fail(QueuePaused); }
    if tail.IsFull() { return Fail(IndexFull); }
    var id := queue.jobCount;
    if queue.jobCount == U64_MAX { return Fail(QueueFull); }
    queue.jobCount := queue.jobCount + 1;
    if queue.pendingCount == U64_MAX { return Fail(QueueFull); }
    queue.pendingCount := queue.pendingCount + 1;
    var scheduledAt := if executeAfter == 0 then now else executeAfter;
    job.Describe(key, id, jobType, payload, priority, now, queue.maxRetries);
    job.Begin(scheduledAt);
    assert job.Data() == H.NewJob(key, old(queue.Data()), payload, jobType, priority, executeAfter, now);
    r := tail.PushJob(id);
    if r.Fail? { return; }
    if head.totalJobs == U64_MAX { return Fail(Overflow); }
    head.totalJobs := head.totalJobs + 1;
  }

  method ClaimJob(job: Job, page: JobIndex, worker: Pubkey, now: I64) returns (r: Outcome)
    requires page.Valid()
    modifies job, page`len, page.jobIds
    ensures page.Valid()
    ensures match H.ClaimJob(old(job.Data()), old(page.Data()), worker, now)
            case Ok((j, p)) => r == Pass && job.Data() == j && page.Data() == p
            case Err(e) => r == Fail(e)
  {
    if job.status != Pending { return Fail(JobNotPending); }
    if !(now >= job.executeAfter) { return Fail(JobNotReady); }
    var id := job.jobId;
    ghost var j := job.Data();
    job.status := Processing;
    job.worker := Some(worker);
    job.startedAt := Some(now);
    job.attempts := NextAttempt(job.attempts);
    assert job.Data() == j.(status := Processing, worker := Some(worker), startedAt := Some(now),
                            attempts := NextAttempt(j.attempts));
    r := page.RemoveJob(id);
  }

  method CompleteJob(queue: Queue, job: Job, worker: Pubkey, result: Option<Bytes>, now: I64)
    returns (r: Outcome)
    modifies queue, job
    ensures match H.CompleteJob(old(queue.Data()), old(job.Data()), worker, result, now)
            case Ok((q, j)) => r == Pass && queue.Data() == q && job.Data() == j
            case Err(e) => r == Fail(e)
  {
    if job.status != Processing { return Fail(JobNotProcessing); }
    if job.worker != Some(worker) { return Fail(Unauthorized); }
    if result.Some? {
      if |result.value| > 128 { return Fail(ResultTooLarge); }
    }
    job.status := Completed;
    job.completedAt := Some(now);
    job.result := result;
    queue.pendingCount := SaturatingSubOne(queue.pendingCount);
    if queue.processedCount == U64_MAX { return Fail(Overflow); }
    queue.processedCount := queue.processedCount + 1;
    return Pass;
  }

  method FailJob(queue: Queue, job: Job, page: JobIndex, worker: Pubkey, message: Bytes,
                 retryAfter: I64, now: I64) returns (r: Outcome)
    requires page.Valid()
    modifies queue, job, page`len, page.jobIds
    ensures page.Valid()
    ensures match H.FailJob(old(queue.Data()), old(job.Data()), old(page.Data()), worker, message, retryAfter, now)
            case Ok((q, j, p)) => r == Pass && queue.Data() == q && job.Data() == j && page.Data() == p
            case Err(e) => r == Fail(e)
  {
    if job.status != Processing { return Fail(JobNotProcessing); }
    if job.worker != Some(worker) { return Fail(Unauthorized); }
    if |message| > 128 { return Fail(ResultTooLarge); }
    var id := job.jobId;
    ghost var j := job.Data();
    job.errorMessage := Some(message);
    assert job.Data() == j.(errorMessage := Some(message));
    if job.attempts < job.maxRetries {
      var backoff := Backoff(retryAfter, job.attempts);
      job.Release(WrappingAdd(now, backoff));
      r := page.PushJob(id);
    } else {
      job.Bury(now);
      queue.pendingCount := SaturatingSubOne(queue.pendingCount);
      if queue.failedCount == U64_MAX { return Fail(Overflow); }
      queue.failedCount := queue.failedCount + 1;
      return Pass;
    }
  }

  method CancelJob(queue: Queue, job: Job, page: JobIndex, signer: Pubkey, now: I64) returns (r: Outcome)
    requires page.Valid()
    modifies queue, job, page`len, page.jobIds
    ensures page.Valid()
    ensures match H.CancelJob(old(queue.Data()), old(job.Data()), old(page.Data()), signer, now)
            case Ok((q, j, p)) => r == Pass && queue.Data() == q && job.Data() == j && page.Data() == p
            case Err(e) => r == Fail(e)
  {
    if signer != queue.authority { return Fail(Unauthorized); }
    if !(job.status == Pending || job.status == Processing) { return Fail(CannotCancel); }
    var id := job.jobId;
    r := page.RemoveJob(id);
    if r.Fail? { return; }
    job.status := Cancelled;
    job.completedAt := Some(now);
    queue.pendingCount := SaturatingSubOne(queue.pendingCount);
  }

  method SetQueuePaused(queue: Queue, signer: Pubkey, paused: bool) returns (r: Outcome)
    modifies queue
    ensures match H.SetQueuePaused(old(queue.Data()), signer, paused)
            case Ok(q) => r == Pass && queue.Data() == q
            case Err(e) => r == Fail(e)
  {
    if signer != queue.authority { return Fail(Unauthorized); }
    queue.paused := paused;
    return Pass;
  }
}
