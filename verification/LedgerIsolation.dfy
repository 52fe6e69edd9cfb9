/** Queues do not interfere: on a ledger with any number of queues, each transaction acts on one
    of them exactly as a call on that queue by itself, so every run, seen from one queue, is a run
    of that queue alone. */
module LedgerIsolation {
  import opened Types
  import opened Accounts
  import opened QueueMachine
  import opened QueueTheorems
  import opened LedgerState
  import H = Handlers

  /** The ledger changed at queue q only, and is still well-formed. */
  ghost predicate OnlyAt(l: LState, l': LState, q: Pubkey) {
    WellFormed(l') && Untouched(l, l', q) && q in l'.queues && q in l'.heads
  }

  /** The outcome r on the ledger is the outcome s on queue q by itself, and nothing else. */
  ghost predicate Accords(l: LState, r: Result<LState>, s: Result<QState>, q: Pubkey) {
    match s
    case Err(e) => r == Err(e)
    case Ok(s') => r.Ok? && OnlyAt(l, r.value, q) && Project(r.value, q) == s'
  }

  // ---- Writing one account back ----

  lemma PutQueue(l: LState, q: Pubkey, d: QueueData)
    requires WellFormed(l) && q in l.queues && d.authority == l.queues[q].authority && d.name == l.queues[q].name
    ensures var l' := l.(queues := l.queues[q := d]);
      OnlyAt(l, l', q) && Project(l', q) == Project(l, q).(queue := d)
  {
  }

  lemma PutHead(l: LState, q: Pubkey, d: HeadData)
    requires WellFormed(l) && q in l.queues
    ensures var l' := l.(heads := l.heads[q := d]);
      OnlyAt(l, l', q) && Project(l', q) == Project(l, q).(head := d)
  {
  }

  lemma PageOnlyAt(l: LState, k: PageKey, d: PageData)
    requires WellFormed(l) && k.queue in l.queues && d.queue == k.queue
    ensures OnlyAt(l, l.(pages := l.pages[k := d]), k.queue)
  {
  }

  lemma JobOnlyAt(l: LState, k: JobKey, d: JobData)
    requires WellFormed(l) && k.queue in l.queues && d.queue == k.queue && d.jobId == k.id
    ensures OnlyAt(l, l.(jobs := l.jobs[k := d]), k.queue)
  {
  }

  lemma {:induction false} PageProject(l: LState, k: PageKey, d: PageData)
    requires k.queue in l.queues && k.queue in l.heads
    ensures Project(l.(pages := l.pages[k := d]), k.queue)
            == Project(l, k.queue).(pages := Project(l, k.queue).pages[k.pageSeq := d])
  {
    PagePut(l.pages, k.queue, k.pageSeq, d);
  }

  lemma {:induction false} JobProject(l: LState, k: JobKey, d: JobData)
    requires k.queue in l.queues && k.queue in l.heads
    ensures Project(l.(jobs := l.jobs[k := d]), k.queue)
            == Project(l, k.queue).(jobs := Project(l, k.queue).jobs[k.id := d])
  {
    JobPut(l.jobs, k.queue, k.id, d);
  }

  lemma {:induction false} PutPage(l: LState, k: PageKey, d: PageData)
    requires WellFormed(l) && k.queue in l.queues && d.queue == k.queue
    ensures var l' := l.(pages := l.pages[k := d]);
      && OnlyAt(l, l', k.queue)
      && Project(l', k.queue) == Project(l, k.queue).(pages := Project(l, k.queue).pages[k.pageSeq := d])
  {
    PageOnlyAt(l, k, d);
    PageProject(l, k, d);
  }

  lemma {:induction false} PutJob(l: LState, k: JobKey, d: JobData)
    requires WellFormed(l) && k.queue in l.queues && d.queue == k.queue && d.jobId == k.id
    ensures var l' := l.(jobs := l.jobs[k := d]);
      && OnlyAt(l, l', k.queue)
      && Project(l', k.queue) == Project(l, k.queue).(jobs := Project(l, k.queue).jobs[k.id := d])
  {
    JobOnlyAt(l, k, d);
    JobProject(l, k, d);
  }

  lemma OnlyAtTwice(l: LState, m: LState, n: LState, q: Pubkey)
    requires OnlyAt(l, m, q) && OnlyAt(m, n, q)
    ensures OnlyAt(l, n, q)
  {
    forall o: Pubkey | o != q
      ensures SameAt(l.queues, n.queues, o) && SameAt(l.heads, n.heads, o)
    {
      assert SameAt(l.queues, m.queues, o) && SameAt(m.queues, n.queues, o);
      assert SameAt(l.heads, m.heads, o) && SameAt(m.heads, n.heads, o);
    }
    forall k: PageKey | k.queue != q
      ensures SameAt(l.pages, n.pages, k)
    {
      assert SameAt(l.pages, m.pages, k) && SameAt(m.pages, n.pages, k);
    }
    forall k: JobKey | k.queue != q
      ensures SameAt(l.jobs, n.jobs, k)
    {
      assert SameAt(l.jobs, m.jobs, k) && SameAt(m.jobs, n.jobs, k);
    }
  }

  /** Writing a queue, a job and a page of the same queue. */
  lemma {:induction false} PutThree(l: LState, q: Pubkey, qd: QueueData, job: JobKey, j: JobData,
                                    page: PageKey, p: PageData)
    requires WellFormed(l) && q in l.queues && job.queue == q && page.queue == q
    requires qd.authority == l.queues[q].authority && qd.name == l.queues[q].name
    requires j.queue == q && j.jobId == job.id && p.queue == q
    ensures var l' := l.(queues := l.queues[q := qd], jobs := l.jobs[job := j], pages := l.pages[page := p]);
      && OnlyAt(l, l', q)
      && Project(l', q) == Project(l, q).(queue := qd, jobs := Project(l, q).jobs[job.id := j],
                                          pages := Project(l, q).pages[page.pageSeq := p])
  {
    var l1 := l.(queues := l.queues[q := qd]);
    var l2 := l1.(jobs := l1.jobs[job := j]);
    PutQueue(l, q, qd);
    PutJob(l1, job, j);
    PutPage(l2, page, p);
    OnlyAtTwice(l, l1, l2, q);
    OnlyAtTwice(l, l2, l2.(pages := l2.pages[page := p]), q);
  }

  // ---- Instruction by instruction ----

  lemma {:induction false} GrowActs(l: LState, q: Pubkey, tail: PageKey, newTail: PageKey, signer: Pubkey, newSeq: U64)
    requires WellFormed(l) && q in l.queues
    requires tail == PageKey(q, l.heads[q].tailIndexSeq) && newTail == PageKey(q, newSeq)
    ensures Accords(l, ExecGrow(l, q, q, tail, newTail, signer, newSeq),
                    StepGrow(Project(l, q), signer, newSeq), q)
  {
    PageAt(l.pages, q, tail.pageSeq);
    PageAt(l.pages, q, newSeq);
    if tail in l.pages {
      var r := H.GrowIndex(q, l.queues[q], l.heads[q], l.pages[tail], signer, newSeq);
      if r.Ok? {
        var (h, full, next) := r.value;
        var l1 := l.(heads := l.heads[q := h]);
        var l2 := l1.(pages := l1.pages[tail := full]);
        PutHead(l, q, h);
        PutPage(l1, tail, full);
        PutPage(l2, newTail, next);
        OnlyAtTwice(l, l1, l2, q);
        OnlyAtTwice(l, l2, l2.(pages := l2.pages[newTail := next]), q);
      }
    }
  }

  lemma AdvanceActs(l: LState, q: Pubkey, page: PageKey)
    requires WellFormed(l) && q in l.queues && page == PageKey(q, l.heads[q].headIndexSeq)
    ensures Accords(l, ExecAdvance(l, q, page), StepAdvance(Project(l, q)), q)
  {
    PageAt(l.pages, q, page.pageSeq);
    if page in l.pages {
      var r := H.AdvanceHead(l.heads[q], l.pages[page]);
      if r.Ok? {
        PutHead(l, q, r.value);
      }
    }
  }

  lemma {:induction false} EnqueueActs(l: LState, q: Pubkey, job: JobKey, tail: PageKey, payload: Bytes, jobType: Bytes,
                                       priority: U8, executeAfter: I64, now: I64)
    requires WellFormed(l) && q in l.queues
    requires job == JobKey(q, l.queues[q].jobCount) && tail == PageKey(q, l.heads[q].tailIndexSeq)
    requires tail in l.pages
    ensures Accords(l, ExecEnqueue(l, q, job, q, tail, payload, jobType, priority, executeAfter, now),
                    StepEnqueue(Project(l, q), payload, jobType, priority, executeAfter, now), q)
  {
    PageAt(l.pages, q, tail.pageSeq);
    JobAt(l.jobs, q, job.id);
    var r := H.EnqueueJob(q, l.queues[q], l.heads[q], l.pages[tail], payload, jobType, priority, executeAfter, now);
    if r.Ok? {
      var (qd, h, p, j) := r.value;
      var l1 := l.(heads := l.heads[q := h]);
      PutHead(l, q, h);
      PutThree(l1, q, qd, job, j, tail, p);
      OnlyAtTwice(l, l1, l1.(queues := l1.queues[q := qd], jobs := l1.jobs[job := j],
                             pages := l1.pages[tail := p]), q);
    }
  }

  lemma {:induction false} ClaimActs(l: LState, job: JobKey, page: PageKey, worker: Pubkey, now: I64)
    requires WellFormed(l) && job.queue == page.queue && job.queue in l.queues
    ensures Accords(l, ExecClaim(l, job, page, worker, now),
                    StepClaim(Project(l, job.queue), job.id, page.pageSeq, worker, now), job.queue)
  {
    var q := job.queue;
    PageAt(l.pages, q, page.pageSeq);
    JobAt(l.jobs, q, job.id);
    if job in l.jobs && page in l.pages {
      var r := H.ClaimJob(l.jobs[job], l.pages[page], worker, now);
      if r.Ok? {
        var (j, p) := r.value;
        PutThree(l, q, l.queues[q], job, j, page, p);
        assert l.queues[q := l.queues[q]] == l.queues;
      }
    }
  }

  lemma {:induction false} CompleteActs(l: LState, q: Pubkey, job: JobKey, worker: Pubkey, result: Option<Bytes>,
                                        now: I64)
    requires WellFormed(l) && q in l.queues && job.queue == q
    ensures Accords(l, ExecComplete(l, q, job, worker, result, now),
                    StepComplete(Project(l, q), job.id, worker, result, now), q)
  {
    JobAt(l.jobs, q, job.id);
    if job in l.jobs {
      var r := H.CompleteJob(l.queues[q], l.jobs[job], worker, result, now);
      if r.Ok? {
        var (qd, j) := r.value;
        var l1 := l.(queues := l.queues[q := qd]);
        PutQueue(l, q, qd);
        PutJob(l1, job, j);
        OnlyAtTwice(l, l1, l1.(jobs := l1.jobs[job := j]), q);
      }
    }
  }

  lemma {:induction false} FailActs(l: LState, q: Pubkey, job: JobKey, page: PageKey, worker: Pubkey, message: Bytes,
                                    retryAfter: I64, now: I64)
    requires WellFormed(l) && q in l.queues && job.queue == q && page.queue == q
    ensures Accords(l, ExecFail(l, q, job, page, worker, message, retryAfter, now),
                    StepFail(Project(l, q), job.id, page.pageSeq, worker, message, retryAfter, now), q)
  {
    PageAt(l.pages, q, page.pageSeq);
    JobAt(l.jobs, q, job.id);
    if job in l.jobs && page in l.pages {
      var r := H.FailJob(l.queues[q], l.jobs[job], l.pages[page], worker, message, retryAfter, now);
      if r.Ok? {
        var (qd, j, p) := r.value;
        PutThree(l, q, qd, job, j, page, p);
      }
    }
  }

  lemma {:induction false} CancelActs(l: LState, q: Pubkey, job: JobKey, page: PageKey, signer: Pubkey, now: I64)
    requires WellFormed(l) && q in l.queues && job.queue == q && page.queue == q
    ensures Accords(l, ExecCancel(l, q, job, page, signer, now),
                    StepCancel(Project(l, q), job.id, page.pageSeq, signer, now), q)
  {
    PageAt(l.pages, q, page.pageSeq);
    JobAt(l.jobs, q, job.id);
    if job in l.jobs && page in l.pages {
      var r := H.CancelJob(l.queues[q], l.jobs[job], l.pages[page], signer, now);
      if r.Ok? {
        var (qd, j, p) := r.value;
        PutThree(l, q, qd, job, j, page, p);
      }
    }
  }

  lemma SetPausedActs(l: LState, q: Pubkey, signer: Pubkey, paused: bool)
    requires WellFormed(l) && q in l.queues
    ensures Accords(l, ExecSetPaused(l, q, signer, paused),
                    StepSetPaused(Project(l, q), signer, paused), q)
  {
    var r := H.SetQueuePaused(l.queues[q], signer, paused);
    if r.Ok? {
      PutQueue(l, q, r.value);
    }
  }

  // ---- Reachable ledgers ----

  /** Every queue on the ledger is, by itself, a reachable queue. */
  ghost predicate AllReachable(l: LState) {
    forall q | q in l.queues && q in l.heads :: Reachable(Project(l, q))
  }

  lemma TailExists(l: LState, q: Pubkey)
    requires WellFormed(l) && AllReachable(l) && q in l.queues
    ensures PageKey(q, l.heads[q].tailIndexSeq) in l.pages
  {
    ReachableImpliesInv(Project(l, q));
    PageAt(l.pages, q, l.heads[q].tailIndexSeq);
  }

  ghost predicate Acts(l: LState, tx: Transaction)
    requires !tx.ix.Initialize? && Target(tx.ix) in l.queues && Target(tx.ix) in l.heads
  {
    Accords(l, Exec(l, tx), Step(Project(l, Target(tx.ix)), Call(OpOf(tx.ix), tx.now)), Target(tx.ix))
  }

  /** The lemma for one instruction, in terms of the two dispatchers. The state of the queue is a
      parameter of its own, so that dispatching does not look into it. */
  lemma GrowDispatch(l: LState, s: QState, tx: Transaction)
    requires tx.ix.Grow?
    ensures var ix := tx.ix;
      && Exec(l, tx) == ExecGrow(l, ix.queue, ix.head, ix.tail, ix.newTail, ix.signer, ix.newSeq)
      && Step(s, Call(OpOf(ix), tx.now)) == StepGrow(s, ix.signer, ix.newSeq)
  {
  }

  lemma AdvanceDispatch(l: LState, s: QState, tx: Transaction)
    requires tx.ix.Advance?
    ensures var ix := tx.ix;
      && Exec(l, tx) == ExecAdvance(l, ix.head, ix.page)
      && Step(s, Call(OpOf(ix), tx.now)) == StepAdvance(s)
  {
  }

  lemma EnqueueDispatch(l: LState, s: QState, tx: Transaction)
    requires tx.ix.Enqueue?
    ensures var ix := tx.ix;
      && Exec(l, tx) == ExecEnqueue(l, ix.queue, ix.job, ix.head, ix.tail, ix.payload, ix.jobType, ix.priority,
                                    ix.executeAfter, tx.now)
      && Step(s, Call(OpOf(ix), tx.now)) == StepEnqueue(s, ix.payload, ix.jobType, ix.priority, ix.executeAfter, tx.now)
  {
  }

  lemma ClaimDispatch(l: LState, s: QState, tx: Transaction)
    requires tx.ix.Claim?
    ensures var ix := tx.ix;
      && Exec(l, tx) == ExecClaim(l, ix.job, ix.page, ix.worker, tx.now)
      && Step(s, Call(OpOf(ix), tx.now)) == StepClaim(s, ix.job.id, ix.page.pageSeq, ix.worker, tx.now)
  {
  }

  lemma CompleteDispatch(l: LState, s: QState, tx: Transaction)
    requires tx.ix.Complete?
    ensures var ix := tx.ix;
      && Exec(l, tx) == ExecComplete(l, ix.queue, ix.job, ix.worker, ix.result, tx.now)
      && Step(s, Call(OpOf(ix), tx.now)) == StepComplete(s, ix.job.id, ix.worker, ix.result, tx.now)
  {
  }

  lemma FailDispatch(l: LState, s: QState, tx: Transaction)
    requires tx.ix.Fail?
    ensures var ix := tx.ix;
      && Exec(l, tx) == ExecFail(l, ix.queue, ix.job, ix.page, ix.worker, ix.message, ix.retryAfter, tx.now)
      && Step(s, Call(OpOf(ix), tx.now)) == StepFail(s, ix.job.id, ix.page.pageSeq, ix.worker, ix.message,
                                                       ix.retryAfter, tx.now)
  {
  }

  lemma CancelDispatch(l: LState, s: QState, tx: Transaction)
    requires tx.ix.Cancel?
    ensures var ix := tx.ix;
      && Exec(l, tx) == ExecCancel(l, ix.queue, ix.job, ix.page, ix.signer, tx.now)
      && Step(s, Call(OpOf(ix), tx.now)) == StepCancel(s, ix.job.id, ix.page.pageSeq, ix.signer, tx.now)
  {
  }

  lemma SetPausedDispatch(l: LState, s: QState, tx: Transaction)
    requires tx.ix.SetPaused?
    ensures var ix := tx.ix;
      && Exec(l, tx) == ExecSetPaused(l, ix.queue, ix.signer, ix.paused)
      && Step(s, Call(OpOf(ix), tx.now)) == StepSetPaused(s, ix.signer, ix.paused)
  {
  }

  lemma GrowTransaction(l: LState, tx: Transaction)
    requires WellFormed(l) && tx.ix.Grow? && Addressed(l, tx.ix)
    ensures Acts(l, tx)
  {
    var q := Target(tx.ix);
    var Grow(_, _, tail, newTail, signer, newSeq) := tx.ix;
    GrowDispatch(l, Project(l, q), tx);
    GrowActs(l, q, tail, newTail, signer, newSeq);
  }

  lemma AdvanceTransaction(l: LState, tx: Transaction)
    requires WellFormed(l) && tx.ix.Advance? && Addressed(l, tx.ix)
    ensures Acts(l, tx)
  {
    var q := Target(tx.ix);
    var Advance(_, page) := tx.ix;
    AdvanceDispatch(l, Project(l, q), tx);
    AdvanceActs(l, q, page);
  }

  lemma EnqueueTransaction(l: LState, tx: Transaction)
    requires WellFormed(l) && tx.ix.Enqueue? && Addressed(l, tx.ix)
    requires tx.ix.tail in l.pages
    ensures Acts(l, tx)
  {
    var q := Target(tx.ix);
    var Enqueue(_, job, _, tail, payload, jobType, priority, executeAfter) := tx.ix;
    EnqueueDispatch(l, Project(l, q), tx);
    EnqueueActs(l, q, job, tail, payload, jobType, priority, executeAfter, tx.now);
  }

  lemma ClaimTransaction(l: LState, tx: Transaction)
    requires WellFormed(l) && tx.ix.Claim? && Addressed(l, tx.ix)
    ensures Acts(l, tx)
  {
    var q := Target(tx.ix);
    var Claim(job, page, worker) := tx.ix;
    ClaimDispatch(l, Project(l, q), tx);
    ClaimActs(l, job, page, worker, tx.now);
  }

  lemma CompleteTransaction(l: LState, tx: Transaction)
    requires WellFormed(l) && tx.ix.Complete? && Addressed(l, tx.ix)
    ensures Acts(l, tx)
  {
    var q := Target(tx.ix);
    var Complete(_, job, worker, result) := tx.ix;
    CompleteDispatch(l, Project(l, q), tx);
    CompleteActs(l, q, job, worker, result, tx.now);
  }

  lemma FailTransaction(l: LState, tx: Transaction)
    requires WellFormed(l) && tx.ix.Fail? && Addressed(l, tx.ix)
    ensures Acts(l, tx)
  {
    var q := Target(tx.ix);
    var Fail(_, job, page, worker, message, retryAfter) := tx.ix;
    FailDispatch(l, Project(l, q), tx);
    FailActs(l, q, job, page, worker, message, retryAfter, tx.now);
  }

  lemma CancelTransaction(l: LState, tx: Transaction)
    requires WellFormed(l) && tx.ix.Cancel? && Addressed(l, tx.ix)
    ensures Acts(l, tx)
  {
    var q := Target(tx.ix);
    var Cancel(_, job, page, signer) := tx.ix;
    CancelDispatch(l, Project(l, q), tx);
    CancelActs(l, q, job, page, signer, tx.now);
  }

  lemma SetPausedTransaction(l: LState, tx: Transaction)
    requires WellFormed(l) && tx.ix.SetPaused? && Addressed(l, tx.ix)
    ensures Acts(l, tx)
  {
    var q := Target(tx.ix);
    var SetPaused(_, signer, paused) := tx.ix;
    SetPausedDispatch(l, Project(l, q), tx);
    SetPausedActs(l, q, signer, paused);
  }

  lemma AddressedActs(l: LState, tx: Transaction)
    requires WellFormed(l) && !tx.ix.Initialize? && Addressed(l, tx.ix)
    requires tx.ix.Enqueue? ==> tx.ix.tail in l.pages
    ensures Acts(l, tx)
  {
    match tx.ix
    case Grow(_, _, _, _, _, _) => GrowTransaction(l, tx);
    case Advance(_, _) => AdvanceTransaction(l, tx);
    case Enqueue(_, _, _, _, _, _, _, _) => EnqueueTransaction(l, tx);
    case Claim(_, _, _) => ClaimTransaction(l, tx);
    case Complete(_, _, _, _) => CompleteTransaction(l, tx);
    case Fail(_, _, _, _, _, _) => FailTransaction(l, tx);
    case Cancel(_, _, _, _) => CancelTransaction(l, tx);
    case SetPaused(_, _, _) => SetPausedTransaction(l, tx);
  }

  /** A well-addressed transaction acts on its queue as one call, commits or fails with that
      call's error, and touches no account of any other queue. */
  lemma TransactionActs(l: LState, tx: Transaction)
    requires WellFormed(l) && AllReachable(l) && !tx.ix.Initialize? && Addressed(l, tx.ix)
    ensures Acts(l, tx)
  {
    if tx.ix.Enqueue? {
      TailExists(l, Target(tx.ix));
    }
    AddressedActs(l, tx);
  }

  // ---- Which constraint fails ----

  /** grow_index: a missing account, then a wrong derived address, then an occupied new page. */
  lemma GrowConstraints(l: LState, tx: Transaction)
    requires tx.ix.Grow?
    ensures var ix := tx.ix;
      var present := ix.queue in l.queues && ix.head in l.heads && ix.tail in l.pages;
      var derived := present && ix.head == ix.queue && ix.newTail == PageKey(ix.queue, ix.newSeq)
                     && ix.tail == PageKey(ix.queue, l.heads[ix.head].tailIndexSeq);
      && (Exec(l, tx) == Err(AccountNotInitialized) <==> !present)
      && (Exec(l, tx) == Err(ConstraintSeeds) <==> present && !derived)
      && (Exec(l, tx) == Err(AccountInUse) <==> derived && ix.newTail in l.pages)
  {
  }

  /** advance_head: a missing account, then a page that is not the head page of the queue it names. */
  lemma AdvanceConstraints(l: LState, tx: Transaction)
    requires tx.ix.Advance? && WellFormed(l)
    ensures var ix := tx.ix;
      var present := ix.head in l.heads && ix.page in l.pages;
      && (Exec(l, tx) == Err(AccountNotInitialized) <==> !present)
      && (Exec(l, tx) == Err(ConstraintSeeds) <==>
            present && !(ix.head == ix.page.queue && ix.page.pageSeq == l.heads[ix.head].headIndexSeq))
  {
  }

  /** enqueue_job: a missing account, then a wrong derived address, then an occupied job address. */
  lemma EnqueueConstraints(l: LState, tx: Transaction)
    requires tx.ix.Enqueue?
    ensures var ix := tx.ix;
      var present := ix.queue in l.queues && ix.head in l.heads && ix.tail in l.pages;
      var derived := present && ix.head == ix.queue && ix.job == JobKey(ix.queue, l.queues[ix.queue].jobCount)
                     && ix.tail == PageKey(ix.queue, l.heads[ix.head].tailIndexSeq);
      && (Exec(l, tx) == Err(AccountNotInitialized) <==> !present)
      && (Exec(l, tx) == Err(ConstraintSeeds) <==> present && !derived)
      && (Exec(l, tx) == Err(AccountInUse) <==> derived && ix.job in l.jobs)
  {
  }

  /** claim_job: a missing account, then a page of another queue. */
  lemma ClaimConstraints(l: LState, tx: Transaction)
    requires tx.ix.Claim? && WellFormed(l)
    ensures var ix := tx.ix;
      var present := ix.job in l.jobs && ix.page in l.pages;
      && (Exec(l, tx) == Err(AccountNotInitialized) <==> !present)
      && (Exec(l, tx) == Err(QueueMismatch) <==> present && ix.page.queue != ix.job.queue)
  {
    var ix := tx.ix;
    assert Exec(l, tx) == ExecClaim(l, ix.job, ix.page, ix.worker, tx.now);
    assert ix.job in l.jobs ==> l.jobs[ix.job].queue == ix.job.queue;
    assert ix.page in l.pages ==> l.pages[ix.page].queue == ix.page.queue;
  }

  /** complete_job: a missing account, then a job of another queue. */
  lemma CompleteConstraints(l: LState, tx: Transaction)
    requires tx.ix.Complete? && WellFormed(l)
    ensures var ix := tx.ix;
      var present := ix.queue in l.queues && ix.job in l.jobs;
      && (Exec(l, tx) == Err(AccountNotInitialized) <==> !present)
      && (Exec(l, tx) == Err(ConstraintHasOne) <==> present && ix.job.queue != ix.queue)
  {
    var ix := tx.ix;
    assert Exec(l, tx) == ExecComplete(l, ix.queue, ix.job, ix.worker, ix.result, tx.now);
    assert ix.job in l.jobs ==> l.jobs[ix.job].queue == ix.job.queue;
  }

  /** fail_job: a missing account, then a job of another queue, then a page of another queue. */
  lemma FailConstraints(l: LState, tx: Transaction)
    requires tx.ix.Fail? && WellFormed(l)
    ensures var ix := tx.ix;
      var present := ix.queue in l.queues && ix.job in l.jobs && ix.page in l.pages;
      && (Exec(l, tx) == Err(AccountNotInitialized) <==> !present)
      && (Exec(l, tx) == Err(ConstraintHasOne) <==> present && ix.job.queue != ix.queue)
      && (Exec(l, tx) == Err(QueueMismatch) <==> present && ix.job.queue == ix.queue && ix.page.queue != ix.queue)
  {
    var ix := tx.ix;
    assert Exec(l, tx) == ExecFail(l, ix.queue, ix.job, ix.page, ix.worker, ix.message, ix.retryAfter, tx.now);
    assert ix.job in l.jobs ==> l.jobs[ix.job].queue == ix.job.queue;
    assert ix.page in l.pages ==> l.pages[ix.page].queue == ix.page.queue;
  }

  /** cancel_job: the same. */
  lemma CancelConstraints(l: LState, tx: Transaction)
    requires tx.ix.Cancel? && WellFormed(l)
    ensures var ix := tx.ix;
      var present := ix.queue in l.queues && ix.job in l.jobs && ix.page in l.pages;
      && (Exec(l, tx) == Err(AccountNotInitialized) <==> !present)
      && (Exec(l, tx) == Err(ConstraintHasOne) <==> present && ix.job.queue != ix.queue)
      && (Exec(l, tx) == Err(QueueMismatch) <==> present && ix.job.queue == ix.queue && ix.page.queue != ix.queue)
  {
    var ix := tx.ix;
    assert Exec(l, tx) == ExecCancel(l, ix.queue, ix.job, ix.page, ix.signer, tx.now);
    assert ix.job in l.jobs ==> l.jobs[ix.job].queue == ix.job.queue;
    assert ix.page in l.pages ==> l.pages[ix.page].queue == ix.page.queue;
  }

  lemma SetPausedConstraints(l: LState, tx: Transaction)
    requires tx.ix.SetPaused?
    ensures Exec(l, tx) == Err(AccountNotInitialized) <==> tx.ix.queue !in l.queues
  {
  }

  /** A transaction that mixes accounts of different queues, or names a wrong derived address,
      is rejected by the account constraints. */
  lemma MixedAccountsRejected(l: LState, tx: Transaction)
    requires WellFormed(l) && !tx.ix.Initialize? && !Addressed(l, tx.ix)
    ensures Exec(l, tx).Err?
    ensures Exec(l, tx).error in {AccountNotInitialized, ConstraintSeeds, ConstraintHasOne, QueueMismatch}
  {
  }

  lemma CreatedOnlyAt(l: LState, q: Pubkey, qd: QueueData, h: HeadData, p: PageData)
    requires WellFormed(l) && q !in l.queues && q == QueuePda(qd.authority, qd.name) && p.queue == q
    ensures OnlyAt(l, l.(queues := l.queues[q := qd], heads := l.heads[q := h],
                         pages := l.pages[PageKey(q, 0) := p]), q)
  {
  }

  lemma CreatedProject(l: LState, q: Pubkey, qd: QueueData, h: HeadData, p: PageData)
    requires WellFormed(l) && q !in l.queues
    ensures Project(l.(queues := l.queues[q := qd], heads := l.heads[q := h],
                       pages := l.pages[PageKey(q, 0) := p]), q) == QState(q, qd, h, map[0 := p], map[])
  {
    EmptyProjections(l, q);
    PagePut(l.pages, q, 0, p);
  }

  /** initialize_queue stores exactly what it was asked to, in three new accounts, or fails for
      exactly one reason. */
  lemma InitializeExact(l: LState, authority: Pubkey, name: Bytes, maxRetries: U8, now: I64)
    requires WellFormed(l)
    ensures var q := QueuePda(authority, name);
      var r := Exec(l, Transaction(Initialize(authority, name, maxRetries), now));
      && (r == Err(AccountInUse) <==> q in l.queues)
      && (r == Err(NameTooLong) <==> q !in l.queues && (|name| == 0 || |name| > 32))
      && (r == Err(InvalidRetries) <==> q !in l.queues && 1 <= |name| <= 32 && maxRetries > 10)
      && (q !in l.queues && 1 <= |name| <= 32 && maxRetries <= 10 ==>
            r == Ok(LState(l.queues[q := QueueData(authority, name, 0, 0, 0, 0, maxRetries, false, now)],
                           l.heads[q := HeadData(authority, 0, 0, 0)],
                           l.pages[PageKey(q, 0) := PageData(q, 0, 0, [])],
                           l.jobs)))
  {
    assert PageKey(QueuePda(authority, name), 0).queue == QueuePda(authority, name);
  }

  /** Creation makes a fresh queue and touches nothing else. */
  lemma InitializeActs(l: LState, tx: Transaction, l': LState)
    requires WellFormed(l) && tx.ix.Initialize? && Exec(l, tx) == Ok(l')
    ensures Target(tx.ix) !in l.queues && OnlyAt(l, l', Target(tx.ix)) && IsGenesis(Project(l', Target(tx.ix)))
  {
    var Initialize(authority, name, maxRetries) := tx.ix;
    var q, now := Target(tx.ix), tx.now;
    InitializeExact(l, authority, name, maxRetries, now);
    CreatedOnlyAt(l, q, QueueData(authority, name, 0, 0, 0, 0, maxRetries, false, now),
                  HeadData(authority, 0, 0, 0), PageData(q, 0, 0, []));
    CreatedProject(l, q, QueueData(authority, name, 0, 0, 0, 0, maxRetries, false, now),
                   HeadData(authority, 0, 0, 0), PageData(q, 0, 0, []));
  }

  lemma EmptyProjections(l: LState, q: Pubkey)
    requires WellFormed(l) && q !in l.queues
    ensures PagesOf(l.pages, q) == map[] && JobsOf(l.jobs, q) == map[]
  {
  }

  // ---- Runs ----

  /** The committed calls on queue q after its creation. */
  ghost function CallsOn(txs: seq<Transaction>, q: Pubkey): seq<Call> {
    if txs == [] then []
    else
      var before, tx := txs[..|txs| - 1], txs[|txs| - 1];
      CallsOn(before, q)
      + if Exec(Run(before), tx).Ok? && !tx.ix.Initialize? && Target(tx.ix) == q
        then [Call(OpOf(tx.ix), tx.now)] else []
  }

  /** The state in which queue q was created. */
  ghost function GenesisOf(txs: seq<Transaction>, q: Pubkey): QState
    requires q in Run(txs).queues && q in Run(txs).heads
  {
    if txs == [] then Project(Run(txs), q)
    else
      var before := txs[..|txs| - 1];
      if q in Run(before).queues && q in Run(before).heads then GenesisOf(before, q)
      else Project(Run(txs), q)
  }

  /** Queue q, as it stands after the run, is where its own calls lead from its creation. */
  ghost predicate Tracks(txs: seq<Transaction>, q: Pubkey)
    requires q in Run(txs).queues && q in Run(txs).heads
  {
    && IsGenesis(GenesisOf(txs, q))
    && After(GenesisOf(txs, q), CallsOn(txs, q)) == Ok(Project(Run(txs), q))
  }

  ghost predicate RunGood(txs: seq<Transaction>) {
    && WellFormed(Run(txs))
    && (forall q | q in Run(txs).queues && q in Run(txs).heads :: Tracks(txs, q))
    && (forall q | q !in Run(txs).queues :: CallsOn(txs, q) == [])
  }

  lemma GoodRunIsReachable(txs: seq<Transaction>)
    requires RunGood(txs)
    ensures AllReachable(Run(txs))
  {
  }

  /** A transaction that does not commit on q leaves q tracked. */
  lemma TracksKept(txs: seq<Transaction>, q: Pubkey)
    requires txs != [] && var before := txs[..|txs| - 1];
      && q in Run(before).queues && q in Run(before).heads && Tracks(before, q)
      && q in Run(txs).queues && q in Run(txs).heads
      && Project(Run(txs), q) == Project(Run(before), q)
      && CallsOn(txs, q) == CallsOn(before, q)
    ensures Tracks(txs, q)
  {
  }

  lemma TracksExtended(txs: seq<Transaction>, q: Pubkey, c: Call)
    requires txs != [] && var before := txs[..|txs| - 1];
      && q in Run(before).queues && q in Run(before).heads && Tracks(before, q)
      && q in Run(txs).queues && q in Run(txs).heads
      && Step(Project(Run(before), q), c) == Ok(Project(Run(txs), q))
      && CallsOn(txs, q) == CallsOn(before, q) + [c]
    ensures Tracks(txs, q)
  {
    var before := txs[..|txs| - 1];
    assert GenesisOf(txs, q) == GenesisOf(before, q);
    AfterExtends(GenesisOf(before, q), CallsOn(before, q), Project(Run(before), q), c, Project(Run(txs), q));
  }

  lemma AfterExtends(g: QState, calls: seq<Call>, s: QState, c: Call, t: QState)
    requires After(g, calls) == Ok(s) && Step(s, c) == Ok(t)
    ensures After(g, calls + [c]) == Ok(t)
  {
    assert (calls + [c])[..|calls + [c]| - 1] == calls;
  }

  lemma TracksCreated(txs: seq<Transaction>, q: Pubkey)
    requires txs != [] && q !in Run(txs[..|txs| - 1]).queues
    requires q in Run(txs).queues && q in Run(txs).heads
    requires IsGenesis(Project(Run(txs), q)) && CallsOn(txs, q) == []
    ensures Tracks(txs, q)
  {
  }

  lemma {:induction false} FailedTransaction(txs: seq<Transaction>)
    requires txs != [] && RunGood(txs[..|txs| - 1])
    requires Exec(Run(txs[..|txs| - 1]), txs[|txs| - 1]).Err?
    ensures RunGood(txs)
  {
    var before := txs[..|txs| - 1];
    forall q | q in Run(txs).queues && q in Run(txs).heads
      ensures Tracks(txs, q)
    {
      assert Tracks(before, q);
      TracksKept(txs, q);
    }
  }

  /** How the creation of queue t carries over each clause of RunGood. */
  lemma CreatingKeeps(txs: seq<Transaction>, l: LState, l': LState, t: Pubkey, q: Pubkey)
    requires txs != [] && RunGood(txs[..|txs| - 1])
    requires l == Run(txs[..|txs| - 1]) && l' == Run(txs)
    requires t !in l.queues && OnlyAt(l, l', t) && IsGenesis(Project(l', t))
    requires forall o :: CallsOn(txs, o) == CallsOn(txs[..|txs| - 1], o)
    ensures q in l'.queues && q in l'.heads ==> Tracks(txs, q)
    ensures q !in l'.queues ==> CallsOn(txs, q) == []
  {
    assert CallsOn(txs, q) == CallsOn(txs[..|txs| - 1], q);
    if q == t {
      TracksCreated(txs, q);
    } else {
      assert SameAt(l.queues, l'.queues, q) && SameAt(l.heads, l'.heads, q);
      if q in l.queues {
        assert Tracks(txs[..|txs| - 1], q);
        UntouchedProject(l, l', t, q);
        TracksKept(txs, q);
      }
    }
  }

  lemma NoCallByCreation(txs: seq<Transaction>, q: Pubkey)
    requires txs != [] && txs[|txs| - 1].ix.Initialize?
    ensures CallsOn(txs, q) == CallsOn(txs[..|txs| - 1], q)
  {
  }

  lemma {:induction false} CreatingTransaction(txs: seq<Transaction>)
    requires txs != [] && RunGood(txs[..|txs| - 1]) && txs[|txs| - 1].ix.Initialize?
    requires Exec(Run(txs[..|txs| - 1]), txs[|txs| - 1]).Ok?
    ensures RunGood(txs)
  {
    var l, l', t := Run(txs[..|txs| - 1]), Run(txs), Target(txs[|txs| - 1].ix);
    InitializeActs(l, txs[|txs| - 1], l');
    forall q: Pubkey
      ensures CallsOn(txs, q) == CallsOn(txs[..|txs| - 1], q)
    {
      NoCallByCreation(txs, q);
    }
    forall q: Pubkey
      ensures q in l'.queues && q in l'.heads ==> Tracks(txs, q)
      ensures q !in l'.queues ==> CallsOn(txs, q) == []
    {
      CreatingKeeps(txs, l, l', t, q);
    }
  }

  /** What a committed transaction on queue t does to the tracking of queue q. */
  lemma TracksAfterCall(txs: seq<Transaction>, q: Pubkey, t: Pubkey, c: Call)
    requires txs != [] && var before := txs[..|txs| - 1];
      && q in Run(before).queues && q in Run(before).heads && Tracks(before, q)
      && Untouched(Run(before), Run(txs), t)
      && t in Run(txs).queues && t in Run(txs).heads
      && (q == t ==> Step(Project(Run(before), q), c) == Ok(Project(Run(txs), q)))
      && CallsOn(txs, q) == CallsOn(before, q) + if q == t then [c] else []
    ensures q in Run(txs).queues && q in Run(txs).heads && Tracks(txs, q)
  {
    if q == t {
      TracksExtended(txs, q, c);
    } else {
      UntouchedProject(Run(txs[..|txs| - 1]), Run(txs), t, q);
      TracksKept(txs, q);
    }
  }

  lemma CommittedActs(l: LState, tx: Transaction, l': LState)
    requires WellFormed(l) && AllReachable(l) && !tx.ix.Initialize? && Exec(l, tx) == Ok(l')
    ensures Target(tx.ix) in l.queues && Target(tx.ix) in l.heads && OnlyAt(l, l', Target(tx.ix))
    ensures Step(Project(l, Target(tx.ix)), Call(OpOf(tx.ix), tx.now)) == Ok(Project(l', Target(tx.ix)))
  {
    if !Addressed(l, tx.ix) {
      MixedAccountsRejected(l, tx);
    }
    TransactionActs(l, tx);
  }

  lemma CallsOnLast(txs: seq<Transaction>, q: Pubkey)
    requires txs != [] && !txs[|txs| - 1].ix.Initialize?
    requires Exec(Run(txs[..|txs| - 1]), txs[|txs| - 1]).Ok?
    ensures var tx := txs[|txs| - 1];
      CallsOn(txs, q) == CallsOn(txs[..|txs| - 1], q)
                         + if q == Target(tx.ix) then [Call(OpOf(tx.ix), tx.now)] else []
  {
  }

  /** How a committed call on the target queue carries over each clause of RunGood. */
  lemma CallingKeeps(txs: seq<Transaction>, l: LState, l': LState, q: Pubkey)
    requires txs != [] && RunGood(txs[..|txs| - 1]) && !txs[|txs| - 1].ix.Initialize?
    requires l == Run(txs[..|txs| - 1]) && l' == Run(txs) && Exec(l, txs[|txs| - 1]) == Ok(l')
    requires var tx := txs[|txs| - 1]; var t := Target(tx.ix);
      && t in l.queues && t in l.heads && OnlyAt(l, l', t)
      && Step(Project(l, t), Call(OpOf(tx.ix), tx.now)) == Ok(Project(l', t))
    ensures q in l'.queues && q in l'.heads ==> Tracks(txs, q)
    ensures q !in l'.queues ==> CallsOn(txs, q) == []
  {
    var tx := txs[|txs| - 1];
    SameQueues(l, l', Target(tx.ix), q);
    CallsOnLast(txs, q);
    if q in l'.queues && q in l'.heads {
      assert Tracks(txs[..|txs| - 1], q);
      TracksAfterCall(txs, q, Target(tx.ix), Call(OpOf(tx.ix), tx.now));
    }
  }

  lemma CallingTransaction(txs: seq<Transaction>)
    requires txs != [] && RunGood(txs[..|txs| - 1]) && !txs[|txs| - 1].ix.Initialize?
    requires Exec(Run(txs[..|txs| - 1]), txs[|txs| - 1]).Ok?
    ensures RunGood(txs)
  {
    var l, l' := Run(txs[..|txs| - 1]), Run(txs);
    GoodRunIsReachable(txs[..|txs| - 1]);
    CommittedActs(l, txs[|txs| - 1], l');
    forall q: Pubkey
      ensures q in l'.queues && q in l'.heads ==> Tracks(txs, q)
      ensures q !in l'.queues ==> CallsOn(txs, q) == []
    {
      CallingKeeps(txs, l, l', q);
    }
  }

  lemma SameQueues(l: LState, l': LState, t: Pubkey, q: Pubkey)
    requires OnlyAt(l, l', t) && t in l.queues && t in l.heads
    ensures q in l.queues <==> q in l'.queues
    ensures q in l.heads <==> q in l'.heads
  {
    if q != t {
      assert SameAt(l.queues, l'.queues, q) && SameAt(l.heads, l'.heads, q);
    }
  }

  lemma {:induction false} EveryRunIsGood(txs: seq<Transaction>)
    ensures RunGood(txs)
  {
    if txs != [] {
      var before, tx := txs[..|txs| - 1], txs[|txs| - 1];
      EveryRunIsGood(before);
      if Exec(Run(before), tx).Err? {
        FailedTransaction(txs);
      } else if tx.ix.Initialize? {
        CreatingTransaction(txs);
      } else {
        CallingTransaction(txs);
      }
    }
  }

  /** Isolation over runs: after any transactions whatever, every queue on the ledger is exactly
      where the calls committed on it lead from its own creation, so everything proved of one
      queue holds of all of them at once. */
  lemma {:induction false} QueuesRunIndependently(txs: seq<Transaction>)
    ensures forall q | q in Run(txs).queues ::
      && q in Run(txs).heads
      && IsGenesis(GenesisOf(txs, q))
      && After(GenesisOf(txs, q), CallsOn(txs, q)) == Ok(Project(Run(txs), q))
      && Reachable(Project(Run(txs), q))
  {
    EveryRunIsGood(txs);
    GoodRunIsReachable(txs);
    forall q | q in Run(txs).queues
      ensures q in Run(txs).heads && Tracks(txs, q)
    {
    }
  }
}
