/** The ledger that executes transactions: it checks the account constraints, has the handler run
    on copies of the accounts, and writes them back only if the handler succeeds. */
module Ledger {
  import opened Types
  import opened Accounts
  import opened QueueTheorems
  import opened LedgerState
  import opened LedgerIsolation
  import E = Execution

  /** A transaction that commits leaves the accounts its execution gives and reports success; one
      that fails leaves every account as it was and reports the error. */
  ghost predicate Settles(before: LState, tx: Transaction, after: LState, r: Outcome) {
    match Exec(before, tx)
    case Ok(l) => r == Pass && after == l
    case Err(e) => r == Outcome.Fail(e) && after == before
  }

  /** Every account stored by a run fits the fixed-size buffer it is loaded into. */
  lemma {:induction false} PagesFit(txs: seq<Transaction>, k: PageKey)
    requires k in Run(txs).pages
    ensures |Run(txs).pages[k].jobIds| <= MAX_INDEX_ENTRIES
  {
    var l := Run(txs);
    EveryRunIsGood(txs);
    QueuesRunIndependently(txs);
    var s := Project(l, k.queue);
    ReachableImpliesInv(s);
    PageAt(l.pages, k.queue, k.pageSeq);
  }

  lemma RunExtends(txs: seq<Transaction>, tx: Transaction)
    ensures Run(txs + [tx]) == Apply(Run(txs), tx)
  {
  }

  class Ledger {
    var queues: map<Pubkey, QueueData>
    var heads: map<Pubkey, HeadData>
    var pages: map<PageKey, PageData>
    var jobs: map<JobKey, JobData>
    ghost var history: seq<Transaction>

    function State(): LState
      reads this
    {
      LState(queues, heads, pages, jobs)
    }

    /** The accounts are what the transactions submitted so far lead to. */
    ghost predicate Valid()
      reads this
    {
      State() == Run(history)
    }

    constructor ()
      ensures Valid() && history == []
    {
      queues, heads, pages, jobs := map[], map[], map[], map[];
      history := [];
    }

    /** Note a transaction in the history once its effect is in the accounts. */
    ghost method Record(tx: Transaction, before: LState, r: Outcome)
      requires before == Run(history) && Settles(before, tx, State(), r)
      modifies this`history
      ensures Valid() && history == old(history) + [tx]
    {
      RunExtends(history, tx);
      history := history + [tx];
    }

    method InitializeQueue(authority: Pubkey, name: Bytes, maxRetries: U8, now: I64) returns (r: Outcome)
      requires Valid()
      modifies this
      ensures var tx := Transaction(Initialize(authority, name, maxRetries), now);
        && Valid() && history == old(history) + [tx]
        && Settles(old(State()), tx, State(), r)
    {
      var key := QueuePda(authority, name);
      ghost var tx, before := Transaction(Initialize(authority, name, maxRetries), now), State();
      if key in queues || key in heads || PageKey(key, 0) in pages {
        r := Outcome.Fail(AccountInUse);
      } else {
        var effect := E.InitializeQueue(authority, name, maxRetries, now);
        match effect
        case Err(e) => r := Outcome.Fail(e);
        case Ok((q, h, p)) =>
          queues, heads, pages := queues[key := q], heads[key := h], pages[PageKey(key, 0) := p];
          r := Pass;
      }
      Record(tx, before, r);
    }

    method GrowIndex(queueKey: Pubkey, headKey: Pubkey, tailKey: PageKey, newTailKey: PageKey,
                     signer: Pubkey, newSeq: U64, now: I64) returns (r: Outcome)
      requires Valid()
      modifies this
      ensures var tx := Transaction(Grow(queueKey, headKey, tailKey, newTailKey, signer, newSeq), now);
        && Valid() && history == old(history) + [tx]
        && Settles(old(State()), tx, State(), r)
    {
      ghost var tx := Transaction(Grow(queueKey, headKey, tailKey, newTailKey, signer, newSeq), now);
      ghost var before := State();
      if queueKey !in queues || headKey !in heads || tailKey !in pages {
        r := Outcome.Fail(AccountNotInitialized);
      } else if headKey != queueKey || tailKey != PageKey(queueKey, heads[headKey].tailIndexSeq)
                || newTailKey != PageKey(queueKey, newSeq) {
        r := Outcome.Fail(ConstraintSeeds);
      } else if newTailKey in pages {
        r := Outcome.Fail(AccountInUse);
      } else {
        PagesFit(history, tailKey);
        var effect := E.GrowIndex(queueKey, queues[queueKey], heads[headKey], pages[tailKey], signer, newSeq);
        match effect
        case Err(e) => r := Outcome.Fail(e);
        case Ok((h, full, next)) =>
          heads, pages := heads[headKey := h], pages[tailKey := full][newTailKey := next];
          r := Pass;
      }
      Record(tx, before, r);
    }

    method AdvanceHead(headKey: Pubkey, pageKey: PageKey, now: I64) returns (r: Outcome)
      requires Valid()
      modifies this
      ensures var tx := Transaction(Advance(headKey, pageKey), now);
        && Valid() && history == old(history) + [tx]
        && Settles(old(State()), tx, State(), r)
    {
      ghost var tx, before := Transaction(Advance(headKey, pageKey), now), State();
      if headKey !in heads || pageKey !in pages {
        r := Outcome.Fail(AccountNotInitialized);
      } else if headKey != pages[pageKey].queue
                || pageKey != PageKey(pages[pageKey].queue, heads[headKey].headIndexSeq) {
        r := Outcome.Fail(ConstraintSeeds);
      } else {
        PagesFit(history, pageKey);
        var effect := E.AdvanceHead(heads[headKey], pages[pageKey]);
        match effect
        case Err(e) => r := Outcome.Fail(e);
        case Ok(h) =>
          heads := heads[headKey := h];
          r := Pass;
      }
      Record(tx, before, r);
    }

    method EnqueueJob(queueKey: Pubkey, jobKey: JobKey, headKey: Pubkey, tailKey: PageKey, payload: Bytes,
                      jobType: Bytes, priority: U8, executeAfter: I64, now: I64) returns (r: Outcome)
      requires Valid()
      modifies this
      ensures var tx := Transaction(Enqueue(queueKey, jobKey, headKey, tailKey, payload, jobType, priority,
                                            executeAfter), now);
        && Valid() && history == old(history) + [tx]
        && Settles(old(State()), tx, State(), r)
    {
      ghost var tx := Transaction(Enqueue(queueKey, jobKey, headKey, tailKey, payload, jobType, priority,
                                          executeAfter), now);
      ghost var before := State();
      if queueKey !in queues || headKey !in heads || tailKey !in pages {
        r := Outcome.Fail(AccountNotInitialized);
      } else if jobKey != JobKey(queueKey, queues[queueKey].jobCount) || headKey != queueKey
                || tailKey != PageKey(queueKey, heads[headKey].tailIndexSeq) {
        r := Outcome.Fail(ConstraintSeeds);
      } else if jobKey in jobs {
        r := Outcome.Fail(AccountInUse);
      } else {
        PagesFit(history, tailKey);
        var effect := E.EnqueueJob(queueKey, queues[queueKey], heads[headKey], pages[tailKey],
                                   payload, jobType, priority, executeAfter, now);
        match effect
        case Err(e) => r := Outcome.Fail(e);
        case Ok((q, h, p, j)) =>
          queues, heads := queues[queueKey := q], heads[headKey := h];
          pages, jobs := pages[tailKey := p], jobs[jobKey := j];
          r := Pass;
      }
      Record(tx, before, r);
    }

    method ClaimJob(jobKey: JobKey, pageKey: PageKey, worker: Pubkey, now: I64) returns (r: Outcome)
      requires Valid()
      modifies this
      ensures var tx := Transaction(Claim(jobKey, pageKey, worker), now);
        && Valid() && history == old(history) + [tx]
        && Settles(old(State()), tx, State(), r)
    {
      ghost var tx, before := Transaction(Claim(jobKey, pageKey, worker), now), State();
      if jobKey !in jobs || pageKey !in pages {
        r := Outcome.Fail(AccountNotInitialized);
      } else if pages[pageKey].queue != jobs[jobKey].queue {
        r := Outcome.Fail(QueueMismatch);
      } else {
        PagesFit(history, pageKey);
        var effect := E.ClaimJob(jobs[jobKey], pages[pageKey], worker, now);
        match effect
        case Err(e) => r := Outcome.Fail(e);
        case Ok((j, p)) =>
          jobs, pages := jobs[jobKey := j], pages[pageKey := p];
          r := Pass;
      }
      Record(tx, before, r);
    }

    method CompleteJob(queueKey: Pubkey, jobKey: JobKey, worker: Pubkey, result: Option<Bytes>, now: I64)
      returns (r: Outcome)
      requires Valid()
      modifies this
      ensures var tx := Transaction(Complete(queueKey, jobKey, worker, result), now);
        && Valid() && history == old(history) + [tx]
        && Settles(old(State()), tx, State(), r)
    {
      ghost var tx, before := Transaction(Complete(queueKey, jobKey, worker, result), now), State();
      if queueKey !in queues || jobKey !in jobs {
        r := Outcome.Fail(AccountNotInitialized);
      } else if jobs[jobKey].queue != queueKey {
        r := Outcome.Fail(ConstraintHasOne);
      } else {
        var effect := E.CompleteJob(queues[queueKey], jobs[jobKey], worker, result, now);
        match effect
        case Err(e) => r := Outcome.Fail(e);
        case Ok((q, j)) =>
          queues, jobs := queues[queueKey := q], jobs[jobKey := j];
          r := Pass;
      }
      Record(tx, before, r);
    }

    method FailJob(queueKey: Pubkey, jobKey: JobKey, pageKey: PageKey, worker: Pubkey, message: Bytes,
                   retryAfter: I64, now: I64) returns (r: Outcome)
      requires Valid()
      modifies this
      ensures var tx := Transaction(Instruction.Fail(queueKey, jobKey, pageKey, worker, message, retryAfter), now);
        && Valid() && history == old(history) + [tx]
        && Settles(old(State()), tx, State(), r)
    {
      ghost var tx := Transaction(Instruction.Fail(queueKey, jobKey, pageKey, worker, message, retryAfter), now);
      ghost var before := State();
      if queueKey !in queues || jobKey !in jobs || pageKey !in pages {
        r := Outcome.Fail(AccountNotInitialized);
      } else if jobs[jobKey].queue != queueKey {
        r := Outcome.Fail(ConstraintHasOne);
      } else if pages[pageKey].queue != jobs[jobKey].queue {
        r := Outcome.Fail(QueueMismatch);
      } else {
        PagesFit(history, pageKey);
        var effect := E.FailJob(queues[queueKey], jobs[jobKey], pages[pageKey], worker, message, retryAfter, now);
        match effect
        case Err(e) => r := Outcome.Fail(e);
        case Ok((q, j, p)) =>
          queues, jobs, pages := queues[queueKey := q], jobs[jobKey := j], pages[pageKey := p];
          r := Pass;
      }
      Record(tx, before, r);
    }

    method CancelJob(queueKey: Pubkey, jobKey: JobKey, pageKey: PageKey, signer: Pubkey, now: I64)
      returns (r: Outcome)
      requires Valid()
      modifies this
      ensures var tx := Transaction(Cancel(queueKey, jobKey, pageKey, signer), now);
        && Valid() && history == old(history) + [tx]
        && Settles(old(State()), tx, State(), r)
    {
      ghost var tx, before := Transaction(Cancel(queueKey, jobKey, pageKey, signer), now), State();
      if queueKey !in queues || jobKey !in jobs || pageKey !in pages {
        r := Outcome.Fail(AccountNotInitialized);
      } else if jobs[jobKey].queue != queueKey {
        r := Outcome.Fail(ConstraintHasOne);
      } else if pages[pageKey].queue != jobs[jobKey].queue {
        r := Outcome.Fail(QueueMismatch);
      } else {
        PagesFit(history, pageKey);
        var effect := E.CancelJob(queues[queueKey], jobs[jobKey], pages[pageKey], signer, now);
        match effect
        case Err(e) => r := Outcome.Fail(e);
        case Ok((q, j, p)) =>
          queues, jobs, pages := queues[queueKey := q], jobs[jobKey := j], pages[pageKey := p];
          r := Pass;
      }
      Record(tx, before, r);
    }

    method SetQueuePaused(queueKey: Pubkey, signer: Pubkey, paused: bool, now: I64) returns (r: Outcome)
      requires Valid()
      modifies this
      ensures var tx := Transaction(SetPaused(queueKey, signer, paused), now);
        && Valid() && history == old(history) + [tx]
        && Settles(old(State()), tx, State(), r)
    {
      ghost var tx, before := Transaction(SetPaused(queueKey, signer, paused), now), State();
      if queueKey !in queues {
        r := Outcome.Fail(AccountNotInitialized);
      } else {
        var effect := E.SetQueuePaused(queues[queueKey], signer, paused);
        match effect
        case Err(e) => r := Outcome.Fail(e);
        case Ok(q) =>
          queues := queues[queueKey := q];
          r := Pass;
      }
      Record(tx, before, r);
    }
  }
}
