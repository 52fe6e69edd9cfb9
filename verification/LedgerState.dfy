/** All queues together: typed accounts under injective addresses, transactions that name the
    accounts they use, and the account constraints checked before a handler runs. */
module LedgerState {
  import opened Types
  import opened Accounts
  import opened QueueMachine
  import H = Handlers

  datatype PageKey = PageKey(queue: Pubkey, pageSeq: U64)
  datatype JobKey = JobKey(queue: Pubkey, id: U64)

  /** Queue heads are addressed by the queue they belong to. */
  datatype LState = LState(
    queues: map<Pubkey, QueueData>, heads: map<Pubkey, HeadData>,
    pages: map<PageKey, PageData>, jobs: map<JobKey, JobData>)

  datatype Instruction =
    | Initialize(authority: Pubkey, name: Bytes, maxRetries: U8)
    | Grow(queue: Pubkey, head: Pubkey, tail: PageKey, newTail: PageKey, signer: Pubkey, newSeq: U64)
    | Advance(head: Pubkey, page: PageKey)
    | Enqueue(queue: Pubkey, job: JobKey, head: Pubkey, tail: PageKey,
              payload: Bytes, jobType: Bytes, priority: U8, executeAfter: I64)
    | Claim(job: JobKey, page: PageKey, worker: Pubkey)
    | Complete(queue: Pubkey, job: JobKey, worker: Pubkey, result: Option<Bytes>)
    | Fail(queue: Pubkey, job: JobKey, page: PageKey, worker: Pubkey, message: Bytes, retryAfter: I64)
    | Cancel(queue: Pubkey, job: JobKey, page: PageKey, signer: Pubkey)
    | SetPaused(queue: Pubkey, signer: Pubkey, paused: bool)

  datatype Transaction = Transaction(ix: Instruction, now: I64)

  // ---- Execution: account constraints, then the handler, then the write-back ----

  function Exec(l: LState, tx: Transaction): Result<LState> {
    match tx.ix
    case Initialize(authority, name, maxRetries) => ExecInitialize(l, authority, name, maxRetries, tx.now)
    case Grow(queue, head, tail, newTail, signer, newSeq) => ExecGrow(l, queue, head, tail, newTail, signer, newSeq)
    case Advance(head, page) => ExecAdvance(l, head, page)
    case Enqueue(queue, job, head, tail, payload, jobType, priority, executeAfter) =>
      ExecEnqueue(l, queue, job, head, tail, payload, jobType, priority, executeAfter, tx.now)
    case Claim(job, page, worker) => ExecClaim(l, job, page, worker, tx.now)
    case Complete(queue, job, worker, result) => ExecComplete(l, queue, job, worker, result, tx.now)
    case Fail(queue, job, page, worker, message, retryAfter) =>
      ExecFail(l, queue, job, page, worker, message, retryAfter, tx.now)
    case Cancel(queue, job, page, signer) => ExecCancel(l, queue, job, page, signer, tx.now)
    case SetPaused(queue, signer, paused) => ExecSetPaused(l, queue, signer, paused)
  }

  function ExecInitialize(l: LState, authority: Pubkey, name: Bytes, maxRetries: U8, now: I64): Result<LState> {
    var key := QueuePda(authority, name);
    if key in l.queues || key in l.heads || PageKey(key, 0) in l.pages then Err(AccountInUse)
    else
      var (q, h, p) :- H.InitializeQueue(authority, name, maxRetries, now);
      Ok(l.(queues := l.queues[key := q], heads := l.heads[key := h], pages := l.pages[PageKey(key, 0) := p]))
  }

  function ExecGrow(l: LState, queue: Pubkey, head: Pubkey, tail: PageKey, newTail: PageKey,
                    signer: Pubkey, newSeq: U64): Result<LState>
  {
    if queue !in l.queues || head !in l.heads || tail !in l.pages then Err(AccountNotInitialized)
    else if head != queue then Err(ConstraintSeeds)
    else if tail != PageKey(queue, l.heads[head].tailIndexSeq) then Err(ConstraintSeeds)
    else if newTail != PageKey(queue, newSeq) then Err(ConstraintSeeds)
    else if newTail in l.pages then Err(AccountInUse)
    else
      var (h, full, next) :- H.GrowIndex(queue, l.queues[queue], l.heads[head], l.pages[tail], signer, newSeq);
      Ok(l.(heads := l.heads[head := h], pages := l.pages[tail := full][newTail := next]))
  }

  function ExecAdvance(l: LState, head: Pubkey, page: PageKey): Result<LState> {
    if head !in l.heads || page !in l.pages then Err(AccountNotInitialized)
    else if head != l.pages[page].queue then Err(ConstraintSeeds)
    else if page != PageKey(l.pages[page].queue, l.heads[head].headIndexSeq) then Err(ConstraintSeeds)
    else
      var h :- H.AdvanceHead(l.heads[head], l.pages[page]);
      Ok(l.(heads := l.heads[head := h]))
  }

  function ExecEnqueue(l: LState, queue: Pubkey, job: JobKey, head: Pubkey, tail: PageKey, payload: Bytes,
                       jobType: Bytes, priority: U8, executeAfter: I64, now: I64): Result<LState>
  {
    if queue !in l.queues || head !in l.heads || tail !in l.pages then Err(AccountNotInitialized)
    else if job != JobKey(queue, l.queues[queue].jobCount) then Err(ConstraintSeeds)
    else if head != queue then Err(ConstraintSeeds)
    else if tail != PageKey(queue, l.heads[head].tailIndexSeq) then Err(ConstraintSeeds)
    else if job in l.jobs then Err(AccountInUse)
    else
      var (q, h, p, j) :- H.EnqueueJob(queue, l.queues[queue], l.heads[head], l.pages[tail],
                                       payload, jobType, priority, executeAfter, now);
      Ok(l.(queues := l.queues[queue := q], heads := l.heads[head := h], pages := l.pages[tail := p],
            jobs := l.jobs[job := j]))
  }

  function ExecClaim(l: LState, job: JobKey, page: PageKey, worker: Pubkey, now: I64): Result<LState> {
    if job !in l.jobs || page !in l.pages then Err(AccountNotInitialized)
    else if l.pages[page].queue != l.jobs[job].queue then Err(QueueMismatch)
    else
      var (j, p) :- H.ClaimJob(l.jobs[job], l.pages[page], worker, now);
      Ok(l.(jobs := l.jobs[job := j], pages := l.pages[page := p]))
  }

  function ExecComplete(l: LState, queue: Pubkey, job: JobKey, worker: Pubkey, result: Option<Bytes>,
                        now: I64): Result<LState>
  {
    if queue !in l.queues || job !in l.jobs then Err(AccountNotInitialized)
    else if l.jobs[job].queue != queue then Err(ConstraintHasOne)
    else
      var (q, j) :- H.CompleteJob(l.queues[queue], l.jobs[job], worker, result, now);
      Ok(l.(queues := l.queues[queue := q], jobs := l.jobs[job := j]))
  }

  function ExecFail(l: LState, queue: Pubkey, job: JobKey, page: PageKey, worker: Pubkey, message: Bytes,
                    retryAfter: I64, now: I64): Result<LState>
  {
    if queue !in l.queues || job !in l.jobs || page !in l.pages then Err(AccountNotInitialized)
    else if l.jobs[job].queue != queue then Err(ConstraintHasOne)
    else if l.pages[page].queue != l.jobs[job].queue then Err(QueueMismatch)
    else
      var (q, j, p) :- H.FailJob(l.queues[queue], l.jobs[job], l.pages[page], worker, message, retryAfter, now);
      Ok(l.(queues := l.queues[queue := q], jobs := l.jobs[job := j], pages := l.pages[page := p]))
  }

  function ExecCancel(l: LState, queue: Pubkey, job: JobKey, page: PageKey, signer: Pubkey, now: I64): Result<LState> {
    if queue !in l.queues || job !in l.jobs || page !in l.pages then Err(AccountNotInitialized)
    else if l.jobs[job].queue != queue then Err(ConstraintHasOne)
    else if l.pages[page].queue != l.jobs[job].queue then Err(QueueMismatch)
    else
      var (q, j, p) :- H.CancelJob(l.queues[queue], l.jobs[job], l.pages[page], signer, now);
      Ok(l.(queues := l.queues[queue := q], jobs := l.jobs[job := j], pages := l.pages[page := p]))
  }

  function ExecSetPaused(l: LState, queue: Pubkey, signer: Pubkey, paused: bool): Result<LState> {
    if queue !in l.queues then Err(AccountNotInitialized)
    else
      var q :- H.SetQueuePaused(l.queues[queue], signer, paused);
      Ok(l.(queues := l.queues[queue := q]))
  }

  /** A transaction that fails leaves every account as it was. */
  function Apply(l: LState, tx: Transaction): LState {
    match Exec(l, tx)
    case Ok(l') => l'
    case Err(_) => l
  }

  function Run(txs: seq<Transaction>): LState {
    if txs == [] then LState(map[], map[], map[], map[])
    else Apply(Run(txs[..|txs| - 1]), txs[|txs| - 1])
  }

  // ---- One queue within the ledger ----

  /** Accounts belong to existing queues and carry the identity of their address. */
  ghost predicate WellFormed(l: LState) {
    && l.heads.Keys == l.queues.Keys
    && (forall q | q in l.queues :: q == QueuePda(l.queues[q].authority, l.queues[q].name))
    && (forall k | k in l.pages :: k.queue in l.queues && l.pages[k].queue == k.queue)
    && (forall k | k in l.jobs :: k.queue in l.queues && l.jobs[k].queue == k.queue && l.jobs[k].jobId == k.id)
  }

  ghost function PagesOf(pages: map<PageKey, PageData>, q: Pubkey): map<U64, PageData> {
    map p: U64 | 0 <= p <= U64_MAX && PageKey(q, p) in pages :: pages[PageKey(q, p)]
  }

  ghost function JobsOf(jobs: map<JobKey, JobData>, q: Pubkey): map<U64, JobData> {
    map i: U64 | 0 <= i <= U64_MAX && JobKey(q, i) in jobs :: jobs[JobKey(q, i)]
  }

  ghost function Project(l: LState, q: Pubkey): QState
    requires q in l.queues && q in l.heads
  {
    QState(q, l.queues[q], l.heads[q], PagesOf(l.pages, q), JobsOf(l.jobs, q))
  }

  /** The queue a transaction is about, read off the addresses it names. */
  function Target(ix: Instruction): Pubkey {
    match ix
    case Initialize(authority, name, _) => QueuePda(authority, name)
    case Advance(_, page) => page.queue
    case Claim(job, _, _) => job.queue
    case Grow(queue, _, _, _, _, _) => queue
    case Enqueue(queue, _, _, _, _, _, _, _) => queue
    case Complete(queue, _, _, _) => queue
    case Fail(queue, _, _, _, _, _) => queue
    case Cancel(queue, _, _, _) => queue
    case SetPaused(queue, _, _) => queue
  }

  function OpOf(ix: Instruction): Op
    requires !ix.Initialize?
  {
    match ix
    case Grow(_, _, _, _, signer, newSeq) => GrowIndex(signer, newSeq)
    case Advance(_, _) => AdvanceHead
    case Enqueue(_, _, _, _, payload, jobType, priority, executeAfter) =>
      EnqueueJob(payload, jobType, priority, executeAfter)
    case Claim(job, page, worker) => ClaimJob(job.id, page.pageSeq, worker)
    case Complete(_, job, worker, result) => CompleteJob(job.id, worker, result)
    case Fail(_, job, page, worker, message, retryAfter) =>
      FailJob(job.id, page.pageSeq, worker, message, retryAfter)
    case Cancel(_, job, page, signer) => CancelJob(job.id, page.pageSeq, signer)
    case SetPaused(_, signer, paused) => SetQueuePaused(signer, paused)
  }

  /** The addresses belong to one existing queue, and derived addresses are the right ones. */
  ghost predicate Addressed(l: LState, ix: Instruction) {
    var q := Target(ix);
    q in l.queues && q in l.heads &&
    match ix
    case Initialize(_, _, _) => false
    case Grow(_, head, tail, newTail, _, newSeq) =>
      head == q && tail == PageKey(q, l.heads[q].tailIndexSeq) && newTail == PageKey(q, newSeq)
    case Advance(head, page) => head == q && page.pageSeq == l.heads[q].headIndexSeq
    case Enqueue(_, job, head, tail, _, _, _, _) =>
      && job == JobKey(q, l.queues[q].jobCount)
      && head == q && tail == PageKey(q, l.heads[q].tailIndexSeq)
    case Claim(_, page, _) => page.queue == q
    case Complete(_, job, _, _) => job.queue == q
    case Fail(_, job, page, _, _, _) => job.queue == q && page.queue == q
    case Cancel(_, job, page, _) => job.queue == q && page.queue == q
    case SetPaused(_, _, _) => true
  }

  /** The two maps agree at k: both lack it, or both hold the same value. */
  ghost predicate SameAt<K, V>(m: map<K, V>, m': map<K, V>, k: K) {
    (k in m <==> k in m') && (k in m ==> m[k] == m'[k])
  }

  /** No account of any other queue is created, removed or changed. */
  ghost predicate Untouched(l: LState, l': LState, q: Pubkey) {
    && (forall o: Pubkey {:trigger SameAt(l.queues, l'.queues, o)} | o != q :: SameAt(l.queues, l'.queues, o))
    && (forall o: Pubkey {:trigger SameAt(l.heads, l'.heads, o)} | o != q :: SameAt(l.heads, l'.heads, o))
    && (forall k: PageKey {:trigger SameAt(l.pages, l'.pages, k)} | k.queue != q :: SameAt(l.pages, l'.pages, k))
    && (forall k: JobKey {:trigger SameAt(l.jobs, l'.jobs, k)} | k.queue != q :: SameAt(l.jobs, l'.jobs, k))
  }

  // ---- Projections ----

  lemma PageAt(pages: map<PageKey, PageData>, q: Pubkey, p: U64)
    ensures p in PagesOf(pages, q) <==> PageKey(q, p) in pages
    ensures p in PagesOf(pages, q) ==> PagesOf(pages, q)[p] == pages[PageKey(q, p)]
  {
  }

  lemma JobAt(jobs: map<JobKey, JobData>, q: Pubkey, i: U64)
    ensures i in JobsOf(jobs, q) <==> JobKey(q, i) in jobs
    ensures i in JobsOf(jobs, q) ==> JobsOf(jobs, q)[i] == jobs[JobKey(q, i)]
  {
  }

  lemma PagePut(pages: map<PageKey, PageData>, q: Pubkey, s: U64, d: PageData)
    ensures PagesOf(pages[PageKey(q, s) := d], q) == PagesOf(pages, q)[s := d]
  {
  }

  lemma JobPut(jobs: map<JobKey, JobData>, q: Pubkey, i: U64, d: JobData)
    ensures JobsOf(jobs[JobKey(q, i) := d], q) == JobsOf(jobs, q)[i := d]
  {
  }

  lemma SamePages(pages: map<PageKey, PageData>, pages': map<PageKey, PageData>, o: Pubkey)
    requires forall p: U64 {:trigger PageKey(o, p)} :: SameAt(pages, pages', PageKey(o, p))
    ensures PagesOf(pages', o) == PagesOf(pages, o)
  {
  }

  lemma SameJobsOf(jobs: map<JobKey, JobData>, jobs': map<JobKey, JobData>, o: Pubkey)
    requires forall i: U64 {:trigger JobKey(o, i)} :: SameAt(jobs, jobs', JobKey(o, i))
    ensures JobsOf(jobs', o) == JobsOf(jobs, o)
  {
  }

  /** An untouched queue looks the same. */
  lemma UntouchedProject(l: LState, l': LState, q: Pubkey, o: Pubkey)
    requires Untouched(l, l', q) && o != q && o in l.queues && o in l.heads
    ensures o in l'.queues && o in l'.heads && Project(l', o) == Project(l, o)
  {
    assert SameAt(l.queues, l'.queues, o) && SameAt(l.heads, l'.heads, o);
    assert PagesOf(l'.pages, o) == PagesOf(l.pages, o) by {
      forall p: U64
        ensures SameAt(l.pages, l'.pages, PageKey(o, p))
      {
      }
      SamePages(l.pages, l'.pages, o);
    }
    assert JobsOf(l'.jobs, o) == JobsOf(l.jobs, o) by {
      forall i: U64
        ensures SameAt(l.jobs, l'.jobs, JobKey(o, i))
      {
      }
      SameJobsOf(l.jobs, l'.jobs, o);
    }
  }
}
