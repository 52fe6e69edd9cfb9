/** What every reachable state of a queue satisfies, and the proof that every call keeps it. */
module QueueInvariants {
  import opened Types
  import opened Accounts
  import opened Tallies
  import opened QueueMachine

  // What one job contributes to the counters.

  function OneIf(b: bool): nat {
    if b then 1 else 0
  }

  function Active(j: JobData): nat {
    OneIf(j.status.Pending? || j.status.Processing?)
  }

  function Done(j: JobData): nat {
    OneIf(j.status.Completed?)
  }

  function Dead(j: JobData): nat {
    OneIf(j.status.Failed?)
  }

  function Withdrawn(j: JobData): nat {
    OneIf(j.status.Cancelled?)
  }

  /** How often the job's id has been appended to a page. */
  function Pushes(j: JobData): nat {
    j.attempts + OneIf(j.status.Pending? || j.status.Cancelled?)
  }

  /** How many claims, completions, failures and cancellations the job has been through. */
  function Moves(j: JobData): nat {
    match j.status
    case Processing => if j.attempts == 0 then 0 else 2 * j.attempts - 1
    case Cancelled => 2 * j.attempts + 1
    case _ => 2 * j.attempts
  }

  /** The number of attempts a job can have: one even when no retries are configured. */
  function MaxAttempts(maxRetries: U8): nat {
    if maxRetries == 0 then 1 else maxRetries
  }

  predicate Terminal(j: JobData) {
    j.status.Completed? || j.status.Failed? || j.status.Cancelled?
  }

  ghost predicate Shape(s: QState) {
    && s.head.headIndexSeq <= s.head.tailIndexSeq
    && (forall p: U64 :: p in s.pages <==> p <= s.head.tailIndexSeq)
    && (forall p: U64 | p in s.pages ::
          && s.pages[p].queue == s.key
          && s.pages[p].pageSeq == p
          && s.pages[p].nextSeq == (if p < s.head.tailIndexSeq then p + 1 else 0)
          && |s.pages[p].jobIds| <= MAX_INDEX_ENTRIES)
  }

  /** The lifecycle fields agree with the status and the attempt count is in range. */
  predicate JobOk(key: Pubkey, maxRetries: U8, i: U64, j: JobData) {
    && j.queue == key && j.jobId == i && j.maxRetries == maxRetries
    && (j.status.Pending? || j.status.Cancelled? ==> j.attempts < MaxAttempts(maxRetries))
    && (j.status.Processing? || j.status.Completed? || j.status.Failed? ==>
          1 <= j.attempts <= MaxAttempts(maxRetries))
    && (j.status.Failed? ==> j.attempts == MaxAttempts(maxRetries))
    && (j.status.Pending? || j.status.Cancelled? <==> j.worker.None?)
    && (j.startedAt.None? <==> j.worker.None?)
    && (j.completedAt.Some? <==> Terminal(j))
    && (j.result.Some? ==> j.status.Completed?)
  }

  ghost predicate JobsOk(s: QState) {
    && s.queue.maxRetries <= 10
    && (forall i: U64 :: i in s.jobs <==> i < s.queue.jobCount)
    && (forall i: U64 | i in s.jobs :: JobOk(s.key, s.queue.maxRetries, i, s.jobs[i]))
  }

  /** How often the id is listed on the pages of the queue. */
  ghost function Listed(s: QState, i: U64): nat {
    Occurs(s.pages, s.head.tailIndexSeq + 1, i)
  }

  /** Each pending job is on exactly one page, once, and nothing else is on any page. */
  ghost predicate IndexExact(s: QState) {
    forall i: U64 :: Listed(s, i) == OneIf(i in s.jobs && s.jobs[i].status.Pending?)
  }

  ghost function Total(s: QState, f: JobData -> nat): nat {
    Tally(s.jobs, s.queue.jobCount, f)
  }

  ghost predicate CountersExact(s: QState) {
    && s.head.totalJobs == s.queue.jobCount
    && s.queue.pendingCount == Total(s, Active)
    && s.queue.processedCount == Total(s, Done)
    && s.queue.failedCount == Total(s, Dead)
  }

  /** Every closed page has taken a full page of pushes. */
  ghost predicate GrowthPaid(s: QState)
    requires Shape(s)
  {
    MAX_INDEX_ENTRIES * s.head.tailIndexSeq + |s.pages[s.head.tailIndexSeq].jobIds| <= Total(s, Pushes)
  }

  ghost predicate Inv(s: QState) {
    && s.key == QueuePda(s.queue.authority, s.queue.name)
    && s.head.authority == s.queue.authority
    && Shape(s) && JobsOk(s) && IndexExact(s) && CountersExact(s) && GrowthPaid(s)
  }

  lemma GenesisInv(g: QState)
    requires IsGenesis(g)
    ensures Inv(g)
  {
    forall i: U64
      ensures Listed(g, i) == 0
    {
      assert Occurs(g.pages, 1, i) == Occurs(g.pages, 0, i) + Copies(g.pages[0].jobIds, i);
    }
  }

  // ---- What the index tells about a job ----

  lemma OnPage(s: QState, p: U64, i: U64)
    requires Inv(s) && p in s.pages && i in s.pages[p].jobIds
    ensures i in s.jobs && s.jobs[i].status.Pending?
    ensures Copies(s.pages[p].jobIds, i) == 1
    ensures forall q: U64 | q in s.pages && q != p :: i !in s.pages[q].jobIds
  {
    var n := s.head.tailIndexSeq + 1;
    OccursAtLeast(s.pages, n, p, i);
    assert Listed(s, i) >= 1;
    forall q: U64 | q in s.pages && q != p
      ensures i !in s.pages[q].jobIds
    {
      OccursOnTwo(s.pages, n, if p < q then p else q, if p < q then q else p, i);
    }
  }

  lemma PendingIsOnAPage(s: QState, i: U64) returns (p: U64)
    requires Inv(s) && i in s.jobs && s.jobs[i].status.Pending?
    ensures p in s.pages && i in s.pages[p].jobIds
  {
    assert Listed(s, i) == 1;
    p := OccursWitness(s.pages, s.head.tailIndexSeq + 1, i);
  }

  // ---- Changing one job, and possibly one page ----

  /** The local conditions under which moving one job, and rewriting one page, keeps everything:
      the page gains or loses the job's id exactly as the job becomes or stops being pending, and
      each counter moves by what the job contributes to it. */
  ghost predicate Moved(s: QState, s': QState, i: U64, p: U64)
    requires i in s.jobs && p in s.pages
  {
    && s'.key == s.key && s'.head == s.head
    && s'.queue == s.queue.(pendingCount := s'.queue.pendingCount,
                            processedCount := s'.queue.processedCount,
                            failedCount := s'.queue.failedCount)
    && i in s'.jobs && s'.jobs == s.jobs[i := s'.jobs[i]]
    && p in s'.pages && s'.pages == s.pages[p := s.pages[p].(jobIds := s'.pages[p].jobIds)]
    && var j, j' := s.jobs[i], s'.jobs[i];
       var ids, ids' := s.pages[p].jobIds, s'.pages[p].jobIds;
       && JobOk(s.key, s.queue.maxRetries, i, j')
       && |ids'| <= MAX_INDEX_ENTRIES
       && (forall k: U64 :: Copies(ids', k) - Copies(ids, k)
             == if k == i then OneIf(j'.status.Pending?) - OneIf(j.status.Pending?) else 0)
       && s'.queue.pendingCount - s.queue.pendingCount == Active(j') - Active(j)
       && s'.queue.processedCount - s.queue.processedCount == Done(j') - Done(j)
       && s'.queue.failedCount - s.queue.failedCount == Dead(j') - Dead(j)
       && Pushes(j') >= Pushes(j) && |ids'| - |ids| <= Pushes(j') - Pushes(j)
  }

  lemma MovedListed(s: QState, s': QState, i: U64, p: U64, k: U64)
    requires Shape(s) && i in s.jobs && p in s.pages && Moved(s, s', i, p)
    requires Listed(s, k) == OneIf(k in s.jobs && s.jobs[k].status.Pending?)
    ensures Listed(s', k) == OneIf(k in s'.jobs && s'.jobs[k].status.Pending?)
  {
    OccursUpdate(s.pages, s.head.tailIndexSeq + 1, p, s'.pages[p], k);
  }

  lemma MovedIndex(s: QState, s': QState, i: U64, p: U64)
    requires Shape(s) && IndexExact(s) && i in s.jobs && p in s.pages && Moved(s, s', i, p)
    ensures IndexExact(s')
  {
    forall k: U64
      ensures Listed(s', k) == OneIf(k in s'.jobs && s'.jobs[k].status.Pending?)
    {
      assert Listed(s, k) == OneIf(k in s.jobs && s.jobs[k].status.Pending?);
      MovedListed(s, s', i, p, k);
    }
  }

  lemma MovedTotal(s: QState, s': QState, i: U64, f: JobData -> nat)
    requires i in s.jobs && i in s'.jobs && s'.jobs == s.jobs[i := s'.jobs[i]]
    requires i < s.queue.jobCount == s'.queue.jobCount
    ensures Total(s', f) + f(s.jobs[i]) == Total(s, f) + f(s'.jobs[i])
  {
    TallyUpdate(s.jobs, s.queue.jobCount, f, i, s'.jobs[i]);
  }

  lemma MovedInv(s: QState, s': QState, i: U64, p: U64)
    requires Inv(s) && i in s.jobs && p in s.pages && Moved(s, s', i, p)
    ensures Inv(s')
  {
    assert Shape(s');
    assert JobsOk(s');
    MovedIndex(s, s', i, p);
    MovedTotal(s, s', i, Active);
    MovedTotal(s, s', i, Done);
    MovedTotal(s, s', i, Dead);
    MovedTotal(s, s', i, Pushes);
  }

  // ---- Every call keeps the invariant ----

  lemma GrowListed(s: QState, s': QState, k: U64)
    requires Shape(s) && s.head.tailIndexSeq < U64_MAX
    requires s'.head.tailIndexSeq == s.head.tailIndexSeq + 1
    requires s.head.tailIndexSeq in s'.pages && s'.head.tailIndexSeq in s'.pages
    requires s'.pages == s.pages[s.head.tailIndexSeq := s'.pages[s.head.tailIndexSeq]]
                                [s'.head.tailIndexSeq := s'.pages[s'.head.tailIndexSeq]]
    requires s'.pages[s.head.tailIndexSeq].jobIds == s.pages[s.head.tailIndexSeq].jobIds
    requires s'.pages[s'.head.tailIndexSeq].jobIds == []
    ensures Listed(s', k) == Listed(s, k)
  {
    var tail: nat, tail': nat := s.head.tailIndexSeq, s'.head.tailIndexSeq;
    var mid := s.pages[tail := s'.pages[tail]];
    OccursUpdate(s.pages, tail + 1, tail, s'.pages[tail], k);
    OccursBeyond(mid, tail + 1, tail', s'.pages[tail'], k);
    OccursNext(s'.pages, tail', k);
  }

  lemma GrowInv(s: QState, signer: Pubkey, newSeq: U64)
    requires Inv(s) && StepGrow(s, signer, newSeq).Ok?
    ensures Inv(StepGrow(s, signer, newSeq).value)
  {
    var s' := StepGrow(s, signer, newSeq).value;
    assert Shape(s');
    forall k: U64
      ensures Listed(s', k) == OneIf(k in s'.jobs && s'.jobs[k].status.Pending?)
    {
      GrowListed(s, s', k);
      assert Listed(s, k) == OneIf(k in s.jobs && s.jobs[k].status.Pending?);
    }
  }

  lemma AdvanceInv(s: QState)
    requires Inv(s) && StepAdvance(s).Ok?
    ensures Inv(StepAdvance(s).value)
  {
  }

  lemma EnqueueTotal(s: QState, s': QState, f: JobData -> nat)
    requires s.queue.jobCount < U64_MAX && s'.queue.jobCount == s.queue.jobCount + 1
    requires s.queue.jobCount in s'.jobs && s'.jobs == s.jobs[s.queue.jobCount := s'.jobs[s.queue.jobCount]]
    ensures Total(s', f) == Total(s, f) + f(s'.jobs[s.queue.jobCount])
  {
    TallyBeyond(s.jobs, s.queue.jobCount, f, s.queue.jobCount, s'.jobs[s.queue.jobCount]);
  }

  /** One more pending job, listed once more on the tail page. */
  ghost predicate Added(s: QState, s': QState)
    requires Shape(s)
  {
    var n, tail := s.queue.jobCount, s.head.tailIndexSeq;
    && n < U64_MAX && s'.key == s.key
    && s'.queue == s.queue.(jobCount := n + 1, pendingCount := s'.queue.pendingCount)
    && s'.queue.pendingCount == s.queue.pendingCount + 1
    && s'.head == s.head.(totalJobs := s'.head.totalJobs)
    && s'.head.totalJobs == s.head.totalJobs + 1
    && n in s'.jobs && s'.jobs == s.jobs[n := s'.jobs[n]]
    && s'.pages == s.pages[tail := s.pages[tail].(jobIds := s.pages[tail].jobIds + [n])]
    && |s.pages[tail].jobIds| < MAX_INDEX_ENTRIES
    && s'.jobs[n].status.Pending? && s'.jobs[n].attempts == 0
    && JobOk(s.key, s.queue.maxRetries, n, s'.jobs[n])
  }

  lemma AddedIndex(s: QState, s': QState)
    requires Inv(s) && Added(s, s')
    ensures IndexExact(s')
  {
    var tail: nat, n := s.head.tailIndexSeq, s.queue.jobCount;
    CopiesAfterPush(s.pages[tail].jobIds, n);
    forall k: U64
      ensures Listed(s', k) == OneIf(k in s'.jobs && s'.jobs[k].status.Pending?)
    {
      OccursUpdate(s.pages, tail + 1, tail, s'.pages[tail], k);
      assert Listed(s, k) == OneIf(k in s.jobs && s.jobs[k].status.Pending?);
    }
  }

  lemma AddedInv(s: QState, s': QState)
    requires Inv(s) && Added(s, s')
    ensures Inv(s')
  {
    assert Shape(s');
    assert JobsOk(s');
    AddedIndex(s, s');
    AddedCounters(s, s');
  }

  lemma AddedCounters(s: QState, s': QState)
    requires Shape(s) && Shape(s') && CountersExact(s) && GrowthPaid(s) && Added(s, s')
    ensures CountersExact(s') && GrowthPaid(s')
  {
    EnqueueTotal(s, s', Active);
    EnqueueTotal(s, s', Done);
    EnqueueTotal(s, s', Dead);
    EnqueueTotal(s, s', Pushes);
  }

  lemma EnqueueAdded(s: QState, payload: Bytes, jobType: Bytes, priority: U8, executeAfter: I64, now: I64)
    requires Inv(s) && StepEnqueue(s, payload, jobType, priority, executeAfter, now).Ok?
    ensures Added(s, StepEnqueue(s, payload, jobType, priority, executeAfter, now).value)
  {
  }

  lemma EnqueueInv(s: QState, payload: Bytes, jobType: Bytes, priority: U8, executeAfter: I64, now: I64)
    requires Inv(s) && StepEnqueue(s, payload, jobType, priority, executeAfter, now).Ok?
    ensures Inv(StepEnqueue(s, payload, jobType, priority, executeAfter, now).value)
  {
    EnqueueAdded(s, payload, jobType, priority, executeAfter, now);
    AddedInv(s, StepEnqueue(s, payload, jobType, priority, executeAfter, now).value);
  }

  lemma ClaimMoved(s: QState, id: U64, page: U64, worker: Pubkey, now: I64)
    requires Inv(s) && StepClaim(s, id, page, worker, now).Ok?
    ensures id in s.pages[page].jobIds
    ensures Moved(s, StepClaim(s, id, page, worker, now).value, id, page)
  {
    CopiesAfterTake(s.pages[page].jobIds, id);
  }

  lemma CompleteMoved(s: QState, id: U64, worker: Pubkey, result: Option<Bytes>, now: I64)
    requires Inv(s) && StepComplete(s, id, worker, result, now).Ok?
    ensures Moved(s, StepComplete(s, id, worker, result, now).value, id, 0)
  {
    TallyAtLeast(s.jobs, s.queue.jobCount, Active, id);
    assert s.pages[0] == s.pages[0].(jobIds := s.pages[0].jobIds);
  }

  lemma FailMoved(s: QState, id: U64, page: U64, worker: Pubkey, message: Bytes, retryAfter: I64, now: I64)
    requires Inv(s) && StepFail(s, id, page, worker, message, retryAfter, now).Ok?
    ensures Moved(s, StepFail(s, id, page, worker, message, retryAfter, now).value, id, page)
  {
    TallyAtLeast(s.jobs, s.queue.jobCount, Active, id);
    CopiesAfterPush(s.pages[page].jobIds, id);
  }

  lemma CancelTakesPending(s: QState, id: U64, page: U64, signer: Pubkey, now: I64)
    requires Inv(s) && StepCancel(s, id, page, signer, now).Ok?
    ensures page in s.pages && id in s.pages[page].jobIds && id in s.jobs && s.jobs[id].status.Pending?
  {
    OnPage(s, page, id);
  }

  lemma CancelMoved(s: QState, id: U64, page: U64, signer: Pubkey, now: I64)
    requires Inv(s) && StepCancel(s, id, page, signer, now).Ok?
    ensures id in s.pages[page].jobIds && s.jobs[id].status.Pending?
    ensures Moved(s, StepCancel(s, id, page, signer, now).value, id, page)
  {
    CancelTakesPending(s, id, page, signer, now);
    TallyAtLeast(s.jobs, s.queue.jobCount, Active, id);
    CopiesAfterTake(s.pages[page].jobIds, id);
  }

  lemma StepInv(s: QState, c: Call)
    requires Inv(s) && Step(s, c).Ok?
    ensures Inv(Step(s, c).value)
  {
    match c.op
    case GrowIndex(signer, newSeq) => GrowInv(s, signer, newSeq);
    case AdvanceHead => AdvanceInv(s);
    case EnqueueJob(payload, jobType, priority, executeAfter) =>
      EnqueueInv(s, payload, jobType, priority, executeAfter, c.now);
    case ClaimJob(id, page, worker) =>
      ClaimMoved(s, id, page, worker, c.now);
      MovedInv(s, Step(s, c).value, id, page);
    case CompleteJob(id, worker, result) =>
      CompleteMoved(s, id, worker, result, c.now);
      MovedInv(s, Step(s, c).value, id, 0);
    case FailJob(id, page, worker, message, retryAfter) =>
      FailMoved(s, id, page, worker, message, retryAfter, c.now);
      MovedInv(s, Step(s, c).value, id, page);
    case CancelJob(id, page, signer) =>
      CancelMoved(s, id, page, signer, c.now);
      MovedInv(s, Step(s, c).value, id, page);
    case SetQueuePaused(signer, paused) =>
  }

  /** The invariant holds in every reachable state. */
  lemma {:induction false} ReachableInv(g: QState, calls: seq<Call>)
    requires IsGenesis(g) && After(g, calls).Ok?
    ensures Inv(After(g, calls).value)
  {
    if calls == [] {
      GenesisInv(g);
    } else {
      ReachableInv(g, calls[..|calls| - 1]);
      StepInv(After(g, calls[..|calls| - 1]).value, calls[|calls| - 1]);
    }
  }
}
