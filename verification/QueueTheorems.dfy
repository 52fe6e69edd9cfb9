/** Consequences of the invariant for one state and one call. */
module QueueTheorems {
  import opened Types
  import opened Arithmetic
  import opened Accounts
  import opened Tallies
  import opened QueueMachine
  import opened QueueInvariants

  ghost predicate Reachable(s: QState) {
    exists g: QState, calls: seq<Call> :: IsGenesis(g) && After(g, calls) == Ok(s)
  }

  lemma ReachableImpliesInv(s: QState)
    requires Reachable(s)
    ensures Inv(s)
  {
    var g: QState, calls: seq<Call> :| IsGenesis(g) && After(g, calls) == Ok(s);
    ReachableInv(g, calls);
  }

  // ---- The index ----

  /** All ids on the pages with sequence numbers below n, with multiplicity. */
  ghost function Bag(pages: map<U64, PageData>, n: nat): multiset<U64> {
    if n == 0 then multiset{}
    else Bag(pages, n - 1) + if n - 1 in pages then multiset(pages[n - 1].jobIds) else multiset{}
  }

  ghost function PendingIds(s: QState): set<U64> {
    set i: U64 | i in s.jobs && s.jobs[i].status.Pending?
  }

  lemma {:induction false} BagCounts(pages: map<U64, PageData>, n: nat, id: U64)
    ensures Bag(pages, n)[id] == Occurs(pages, n, id)
  {
    if n > 0 {
      BagCounts(pages, n - 1, id);
    }
  }

  lemma SameBag(ids: seq<U64>, members: set<U64>)
    requires forall i: U64 :: Copies(ids, i) == OneIf(i in members)
    ensures multiset(ids) == multiset(members) && |ids| == |members|
  {
    assert multiset(ids) == multiset(members);
    assert |multiset(ids)| == |ids| && |multiset(members)| == |members|;
  }

  lemma ListedOnce(s: QState, i: U64)
    requires Inv(s)
    ensures Bag(s.pages, s.head.tailIndexSeq + 1)[i] == OneIf(i in PendingIds(s))
  {
    BagCounts(s.pages, s.head.tailIndexSeq + 1, i);
    assert Listed(s, i) == OneIf(i in s.jobs && s.jobs[i].status.Pending?);
  }

  /** The union, with multiplicity, of all allocated pages is the set of pending jobs, and no
      page is over capacity. */
  lemma IndexIsExact(s: QState)
    requires Reachable(s)
    ensures Bag(s.pages, s.head.tailIndexSeq + 1) == multiset(PendingIds(s))
    ensures forall p: U64 | p in s.pages :: |s.pages[p].jobIds| <= 256
  {
    ReachableImpliesInv(s);
    forall i: U64
      ensures Bag(s.pages, s.head.tailIndexSeq + 1)[i] == multiset(PendingIds(s))[i]
    {
      ListedOnce(s, i);
    }
  }

  // ---- The counters ----

  ghost function WithStatus(s: QState, status: JobStatus): set<U64> {
    set i: U64 | i in s.jobs && s.jobs[i].status == status
  }

  /** f is 0 or 1, and ids are the jobs below n for which it is 1. */
  ghost predicate Marks(jobs: map<U64, JobData>, n: nat, f: JobData -> nat, ids: set<U64>) {
    && (forall i: U64 | i in jobs :: f(jobs[i]) <= 1)
    && (forall i: U64 :: i in ids <==> i < n && i in jobs && f(jobs[i]) == 1)
  }

  lemma MarksBelow(jobs: map<U64, JobData>, n: nat, f: JobData -> nat, ids: set<U64>, last: U64)
    requires n == last + 1 && Marks(jobs, n, f, ids)
    ensures Marks(jobs, last, f, ids - {last})
    ensures |ids| == |ids - {last}| + OneIf(last in ids)
    ensures last in ids <==> last in jobs && f(jobs[last]) == 1
    ensures last in jobs ==> f(jobs[last]) <= 1
  {
    if last in ids {
      assert ids == (ids - {last}) + {last};
    } else {
      assert ids == ids - {last};
    }
  }

  /** The number of jobs with ids below n for which f is one is the size of their set. */
  lemma {:induction false} TallyIsSize(jobs: map<U64, JobData>, n: nat, f: JobData -> nat, ids: set<U64>)
    requires n <= U64_MAX + 1 && Marks(jobs, n, f, ids)
    ensures Tally(jobs, n, f) == |ids|
  {
    if n == 0 {
      assert ids == {};
    } else {
      var last: U64 := n - 1;
      MarksBelow(jobs, n, f, ids, last);
      TallyIsSize(jobs, last, f, ids - {last});
    }
  }

  /** Every counter is the number of jobs it stands for, and every job is counted once. */
  lemma CountersAreCounts(s: QState)
    requires Reachable(s)
    ensures s.queue.pendingCount == |WithStatus(s, Pending)| + |WithStatus(s, Processing)|
    ensures s.queue.processedCount == |WithStatus(s, Completed)|
    ensures s.queue.failedCount == |WithStatus(s, Failed)|
    ensures s.queue.jobCount == s.head.totalJobs == |s.jobs|
    ensures s.queue.jobCount == s.queue.pendingCount + s.queue.processedCount + s.queue.failedCount
                                + |WithStatus(s, Cancelled)|
  {
    ReachableImpliesInv(s);
    StatusCounts(s);
    TalliesPartition(s.jobs, s.queue.jobCount);
    AllIds(s.jobs.Keys, s.queue.jobCount);
  }

  lemma StatusCounts(s: QState)
    requires JobsOk(s)
    ensures Total(s, Active) == |WithStatus(s, Pending)| + |WithStatus(s, Processing)|
    ensures Total(s, Done) == |WithStatus(s, Completed)|
    ensures Total(s, Dead) == |WithStatus(s, Failed)|
    ensures Total(s, Withdrawn) == |WithStatus(s, Cancelled)|
  {
    var n := s.queue.jobCount;
    ActiveCount(s);
    TallyIsSize(s.jobs, n, Done, WithStatus(s, Completed));
    TallyIsSize(s.jobs, n, Dead, WithStatus(s, Failed));
    TallyIsSize(s.jobs, n, Withdrawn, WithStatus(s, Cancelled));
  }

  lemma ActiveCount(s: QState)
    requires JobsOk(s)
    ensures Total(s, Active) == |WithStatus(s, Pending)| + |WithStatus(s, Processing)|
  {
    var pending, processing := WithStatus(s, Pending), WithStatus(s, Processing);
    assert pending !! processing;
    TallyIsSize(s.jobs, s.queue.jobCount, Active, pending + processing);
  }

  lemma {:induction false} TalliesPartition(jobs: map<U64, JobData>, n: nat)
    requires n <= U64_MAX + 1 && forall i: U64 | i < n :: i in jobs
    ensures Tally(jobs, n, Active) + Tally(jobs, n, Done) + Tally(jobs, n, Dead) + Tally(jobs, n, Withdrawn) == n
  {
    if n > 0 {
      TalliesPartition(jobs, n - 1);
      var last: U64 := n - 1;
      assert last in jobs;
    }
  }

  lemma {:induction false} AllIds(ids: set<U64>, n: nat)
    requires n <= U64_MAX + 1 && forall i: U64 :: i in ids <==> i < n
    ensures |ids| == n
  {
    if n == 0 {
      assert ids == {};
    } else {
      var last: U64 := n - 1;
      AllIds(ids - {last}, n - 1);
    }
  }

  /** Growth is paid for by pushes, so the tail can never reach the end of the number range. */
  lemma TailBound(s: QState)
    requires Inv(s)
    ensures 256 * s.head.tailIndexSeq <= Total(s, Pushes) <= s.queue.jobCount * MaxAttempts(s.queue.maxRetries)
    ensures s.head.tailIndexSeq < U64_MAX
  {
    forall i: U64 | i in s.jobs
      ensures Pushes(s.jobs[i]) <= MaxAttempts(s.queue.maxRetries)
    {
    }
    TallyBound(s.jobs, s.queue.jobCount, Pushes, MaxAttempts(s.queue.maxRetries));
    assert s.queue.jobCount * MaxAttempts(s.queue.maxRetries) <= 10 * U64_MAX by {
      MulBound(s.queue.jobCount, MaxAttempts(s.queue.maxRetries));
    }
  }

  lemma TailBelow(s: QState)
    requires Inv(s)
    ensures s.head.tailIndexSeq < U64_MAX
  {
    TailBound(s);
  }

  lemma MulBound(a: U64, b: nat)
    requires b <= 10
    ensures a * b <= 10 * U64_MAX
  {
    assert a * b <= a * 10;
  }

  lemma CompleteErrors(s: QState, id: U64, worker: Pubkey, result: Option<Bytes>, now: I64)
    requires Inv(s)
    ensures StepComplete(s, id, worker, result, now).Err? ==>
      StepComplete(s, id, worker, result, now).error !in {Overflow, QueueFull, AccountInUse}
  {
    if id in s.jobs && s.jobs[id].status.Processing? {
      ClosedBelowCount(s, id, Done);
    }
  }

  lemma FailErrors(s: QState, id: U64, page: U64, worker: Pubkey, message: Bytes, retryAfter: I64, now: I64)
    requires Inv(s)
    ensures StepFail(s, id, page, worker, message, retryAfter, now).Err? ==>
      StepFail(s, id, page, worker, message, retryAfter, now).error !in {Overflow, QueueFull, AccountInUse}
  {
    if id in s.jobs && s.jobs[id].status.Processing? {
      ClosedBelowCount(s, id, Dead);
    }
  }

  lemma EnqueueErrors(s: QState, payload: Bytes, jobType: Bytes, priority: U8, executeAfter: I64, now: I64)
    requires Inv(s) && StepEnqueue(s, payload, jobType, priority, executeAfter, now).Err?
    ensures var e := StepEnqueue(s, payload, jobType, priority, executeAfter, now).error;
      && e !in {Overflow, AccountInUse}
      && (e == QueueFull ==> s.queue.jobCount == U64_MAX)
  {
    TallyBound(s.jobs, s.queue.jobCount, Active, 1);
  }

  /** While some job is not yet in a class, the class is smaller than the job count. */
  lemma ClosedBelowCount(s: QState, i: U64, f: JobData -> nat)
    requires Inv(s) && i in s.jobs
    requires forall j: JobData :: f(j) <= 1
    ensures f(s.jobs[i]) == 0 ==> Total(s, f) < s.queue.jobCount
  {
    if f(s.jobs[i]) == 0 {
      TallyMissing(s.jobs, s.queue.jobCount, f, i);
    }
  }

  lemma {:induction false} TallyMissing(jobs: map<U64, JobData>, n: nat, f: JobData -> nat, i: U64)
    requires i < n && i in jobs && f(jobs[i]) == 0 && forall j: JobData :: f(j) <= 1
    ensures Tally(jobs, n, f) < n
  {
    if i < n - 1 {
      TallyMissing(jobs, n - 1, f, i);
    } else {
      TallyBound(jobs, n - 1, f, 1);
    }
  }

  // ---- The list of pages ----

  /** grow_index commits exactly for the authority, the next number and a full tail page: the
      account it creates never exists and its addition never overflows. */
  lemma GrowCommitsIff(s: QState, signer: Pubkey, newSeq: U64, now: I64)
    requires Reachable(s)
    ensures Step(s, Call(GrowIndex(signer, newSeq), now)).Ok? <==>
      && signer == s.queue.authority
      && newSeq == s.head.tailIndexSeq + 1
      && s.head.tailIndexSeq in s.pages && |s.pages[s.head.tailIndexSeq].jobIds| == 256
  {
    ReachableImpliesInv(s);
    TailBound(s);
  }

  /** advance_head commits exactly when the head page is drained and is not the tail, whichever
      half of its guard is asked, and it moves the head by one page. */
  lemma AdvanceCommitsIff(s: QState, now: I64)
    requires Reachable(s)
    ensures s.head.headIndexSeq in s.pages
    ensures s.pages[s.head.headIndexSeq].nextSeq != 0 <==> s.head.headIndexSeq != s.head.tailIndexSeq
    ensures Step(s, Call(AdvanceHead, now)).Ok? <==>
      s.pages[s.head.headIndexSeq].jobIds == [] && s.head.headIndexSeq < s.head.tailIndexSeq
    ensures Step(s, Call(AdvanceHead, now)).Ok? ==>
      Step(s, Call(AdvanceHead, now)).value
      == s.(head := s.head.(headIndexSeq := s.head.headIndexSeq + 1))
  {
    ReachableImpliesInv(s);
  }

  // ---- The lifecycle ----

  predicate IsMove(op: Op) {
    op.ClaimJob? || op.CompleteJob? || op.FailJob? || op.CancelJob?
  }

  /** How a lifecycle call may change the job it names. */
  ghost predicate JobEffect(c: Call, maxRetries: U8, j: JobData, j': JobData)
    requires IsMove(c.op)
  {
    match c.op
    case ClaimJob(_, _, worker) =>
      && j.status.Pending? && c.now >= j.executeAfter && j.attempts < 255
      && j' == j.(status := Processing, worker := Some(worker), startedAt := Some(c.now),
                  attempts := j.attempts + 1)
    case CompleteJob(_, worker, result) =>
      && j.status.Processing? && j.worker == Some(worker)
      && j' == j.(status := Completed, completedAt := Some(c.now), result := result)
    case FailJob(_, _, worker, message, retryAfter) =>
      && j.status.Processing? && j.worker == Some(worker)
      && j' == if j.attempts < maxRetries
               then j.(status := Pending, worker := None, startedAt := None, errorMessage := Some(message),
                       executeAfter := WrappingAdd(c.now, Backoff(retryAfter, j.attempts)))
               else j.(status := Failed, completedAt := Some(c.now), errorMessage := Some(message))
    case CancelJob(_, _, _) =>
      && j.status.Pending?
      && j' == j.(status := Cancelled, completedAt := Some(c.now))
  }

  /** What a committed lifecycle call does to the job table: it rewrites the job it names. */
  lemma MoveEffect(s: QState, c: Call)
    requires Inv(s) && Step(s, c).Ok? && IsMove(c.op)
    ensures c.op.id in s.jobs && c.op.id in Step(s, c).value.jobs
    ensures var s', j' := Step(s, c).value, Step(s, c).value.jobs[c.op.id];
      && s'.jobs == s.jobs[c.op.id := j']
      && s'.queue.jobCount == s.queue.jobCount && s'.queue.maxRetries == s.queue.maxRetries
      && JobEffect(c, s.queue.maxRetries, s.jobs[c.op.id], j')
  {
    if c.op.CancelJob? {
      OnPage(s, c.op.page, c.op.id);
    }
  }

  /** A closing call takes exactly one from the pending count: the subtraction never saturates. */
  lemma PendingCountNeverSaturates(s: QState, c: Call)
    requires Reachable(s) && Step(s, c).Ok? && IsMove(c.op)
    ensures c.op.id in s.jobs
    ensures Step(s, c).value.queue.pendingCount == s.queue.pendingCount
      - if c.op.ClaimJob? || (c.op.FailJob? && s.jobs[c.op.id].attempts < s.queue.maxRetries) then 0 else 1
  {
    ReachableImpliesInv(s);
    StepInv(s, c);
    MoveEffect(s, c);
    MovedTotal(s, Step(s, c).value, c.op.id, Active);
  }

  /** Every other committed call leaves the existing jobs as they are. */
  lemma OtherEffect(s: QState, c: Call)
    requires Inv(s) && Step(s, c).Ok? && !IsMove(c.op)
    ensures var s', n := Step(s, c).value, s.queue.jobCount;
      && s'.queue.maxRetries == s.queue.maxRetries
      && (!c.op.EnqueueJob? ==> s'.jobs == s.jobs && s'.queue.jobCount == n)
      && (c.op.EnqueueJob? ==>
            && n < U64_MAX && n !in s.jobs && n in s'.jobs && s'.queue.jobCount == n + 1
            && s'.jobs == s.jobs[n := s'.jobs[n]]
            && s'.jobs[n].status.Pending? && s'.jobs[n].attempts == 0 && s'.jobs[n].worker.None?)
  {
  }

  /** cancel_job commits only on pending jobs; its guard lets a processing job through, but the
      index never lists one, so the call then fails with that error. */
  lemma CancelOnlyPending(s: QState, id: U64, page: U64, signer: Pubkey, now: I64)
    requires Reachable(s) && id in s.jobs && page in s.pages
    ensures Step(s, Call(CancelJob(id, page, signer), now)).Ok? <==>
      && signer == s.queue.authority
      && s.jobs[id].status.Pending?
      && id in s.pages[page].jobIds
    ensures signer == s.queue.authority && s.jobs[id].status.Processing? ==>
      Step(s, Call(CancelJob(id, page, signer), now)) == Err(JobNotInIndex)
  {
    ReachableImpliesInv(s);
    if id in s.pages[page].jobIds {
      OnPage(s, page, id);
    }
  }

  /** A pending job can be claimed from one page and from no other. */
  lemma ClaimFromOnePage(s: QState, id: U64, worker: Pubkey, now: I64)
    requires Reachable(s) && id in s.jobs && s.jobs[id].status.Pending? && now >= s.jobs[id].executeAfter
    ensures exists p: U64 :: p in s.pages && Step(s, Call(ClaimJob(id, p, worker), now)).Ok?
    ensures forall p: U64, q: U64 |
      && Step(s, Call(ClaimJob(id, p, worker), now)).Ok?
      && Step(s, Call(ClaimJob(id, q, worker), now)).Ok? :: p == q
  {
    ReachableImpliesInv(s);
    var home := PendingIsOnAPage(s, id);
    assert Step(s, Call(ClaimJob(id, home, worker), now)).Ok?;
    OnPage(s, home, id);
    forall p: U64 | Step(s, Call(ClaimJob(id, p, worker), now)).Ok?
      ensures p == home
    {
      assert id in s.pages[p].jobIds;
    }
  }

  /** The lock: a processing job changes only through complete_job or fail_job signed by the
      worker it records, whoever else submits whatever else. */
  lemma {:induction false} LockIsExclusive(s: QState, c: Call, i: U64)
    requires Reachable(s) && Step(s, c).Ok? && i in s.jobs && s.jobs[i].status.Processing?
    ensures i in Step(s, c).value.jobs
    ensures Step(s, c).value.jobs[i] != s.jobs[i] ==>
      && (c.op.CompleteJob? || c.op.FailJob?)
      && c.op.id == i && s.jobs[i].worker == Some(c.op.worker)
  {
    ReachableImpliesInv(s);
    if c.op.CancelJob? && c.op.id == i {
      OnPage(s, c.op.page, i);
    }
  }

  /** A job that has reached a terminal status is never written again. */
  lemma TerminalStep(s: QState, c: Call, i: U64)
    requires Inv(s) && Step(s, c).Ok? && i in s.jobs && Terminal(s.jobs[i])
    ensures i in Step(s, c).value.jobs && Step(s, c).value.jobs[i] == s.jobs[i]
  {
  }

  lemma AfterLast(g: QState, calls: seq<Call>, c: Call)
    requires After(g, calls + [c]).Ok?
    ensures After(g, calls).Ok? && Step(After(g, calls).value, c) == After(g, calls + [c])
  {
    assert (calls + [c])[..|calls + [c]| - 1] == calls;
  }

  lemma {:induction false} TerminalForever(g: QState, calls: seq<Call>, more: seq<Call>, i: U64)
    requires IsGenesis(g) && After(g, calls).Ok? && After(g, calls + more).Ok?
    requires i in After(g, calls).value.jobs && Terminal(After(g, calls).value.jobs[i])
    ensures i in After(g, calls + more).value.jobs
    ensures After(g, calls + more).value.jobs[i] == After(g, calls).value.jobs[i]
  {
    if more == [] {
      assert calls + more == calls;
    } else {
      var n := |more| - 1;
      var before := calls + more[..n];
      assert calls + more == before + [more[n]];
      AfterLast(g, before, more[n]);
      TerminalForever(g, calls, more[..n], i);
      ReachableInv(g, before);
      TerminalStep(After(g, before).value, more[n], i);
    }
  }

  /** The record of a job in each status. */
  lemma LifecycleFields(s: QState, i: U64)
    requires Reachable(s) && i in s.jobs
    ensures s.jobs[i].status.Pending? ==> s.jobs[i].worker.None? && s.jobs[i].startedAt.None?
    ensures s.jobs[i].status.Processing? ==> s.jobs[i].worker.Some? && s.jobs[i].startedAt.Some?
    ensures s.jobs[i].completedAt.Some? <==> Terminal(s.jobs[i])
    ensures s.jobs[i].status.Failed? ==> s.jobs[i].attempts == MaxAttempts(s.queue.maxRetries)
    ensures s.jobs[i].result.Some? ==> s.jobs[i].status.Completed?
  {
    ReachableImpliesInv(s);
  }

  /** Every retry that can happen comes after 1 to 9 attempts, so its multiplier is a true power of
      two. Whatever clock and base delay, its due time is the exact sum precisely when that sum is
      representable; and it lies in the past precisely when the base delay is negative or the sum
      too large, unless a negative clock makes the sum wrap at the other end. */
  lemma RetryDelay(s: QState, s': QState, id: U64, page: U64, worker: Pubkey, message: Bytes,
                   retryAfter: I64, now: I64)
    requires Reachable(s) && Step(s, Call(FailJob(id, page, worker, message, retryAfter), now)) == Ok(s')
    requires id in s.jobs && id in s'.jobs && s'.jobs[id].status.Pending?
    ensures 1 <= s.jobs[id].attempts <= 9
    ensures Multiplier(s.jobs[id].attempts) == Pow2(s.jobs[id].attempts - 1) <= 256
    ensures var delay := Max(I64_MIN, Min(retryAfter * Pow2(s.jobs[id].attempts - 1), I64_MAX));
      var due := s'.jobs[id].executeAfter;
      && (due == now + delay <==> I64_MIN <= now + delay <= I64_MAX)
      && (due >= now <==> (retryAfter >= 0 && now + delay <= I64_MAX) || now + delay < I64_MIN)
      && (now >= 0 ==> (due >= now <==> retryAfter >= 0 && now + delay <= I64_MAX))
  {
    ReachableImpliesInv(s);
    MoveEffect(s, Call(FailJob(id, page, worker, message, retryAfter), now));
    var attempts := s.jobs[id].attempts;
    BackoffExact(retryAfter, attempts);
    BackoffSign(retryAfter, attempts);
    RetryTimeExact(now, Backoff(retryAfter, attempts));
  }
}
