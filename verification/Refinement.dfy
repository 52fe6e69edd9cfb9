/** The linked pages with swap-removal and the incremental counters implement the abstract queue:
    every call has the same outcome in both, error for error. */
module Refinement {
  import opened Types
  import opened Arithmetic
  import opened Accounts
  import opened Tallies
  import opened QueueMachine
  import opened QueueInvariants
  import opened QueueTheorems
  import opened AbstractQueue

  lemma PendingHasAPage(s: QState, i: U64)
    requires Inv(s) && i in s.jobs && s.jobs[i].status.Pending?
    ensures exists p: U64 :: p in s.pages && i in s.pages[p].jobIds
  {
    var home := PendingIsOnAPage(s, i);
  }

  /** The page a pending job is listed on. */
  ghost function PageOf(s: QState, i: U64): (p: U64)
    requires Inv(s) && i in s.jobs && s.jobs[i].status.Pending?
    ensures p in s.pages && i in s.pages[p].jobIds
  {
    PendingHasAPage(s, i);
    var p: U64 :| p in s.pages && i in s.pages[p].jobIds;
    p
  }

  /** The phase of a job record, given the page that lists it if it is pending. */
  ghost function PhaseOf(j: JobData, page: U64): Phase
    requires j.status.Processing? || j.status.Completed? || j.status.Failed? ==> j.worker.Some? && j.startedAt.Some?
    requires Terminal(j) ==> j.completedAt.Some?
  {
    match j.status
    case Pending => Waiting(page)
    case Processing => Running(j.worker.value, j.startedAt.value)
    case Completed => Succeeded(j.worker.value, j.startedAt.value, j.completedAt.value, j.result)
    case Failed => Exhausted(j.worker.value, j.startedAt.value, j.completedAt.value)
    case Cancelled => Phase.Cancelled(j.completedAt.value)
  }

  ghost function AbsPhase(s: QState, i: U64): Phase
    requires Inv(s) && i in s.jobs
  {
    PhaseOf(s.jobs[i], if s.jobs[i].status.Pending? then PageOf(s, i) else 0)
  }

  ghost function AbsJob(s: QState, i: U64): AJob
    requires Inv(s) && i in s.jobs
  {
    var j := s.jobs[i];
    AJob(j.jobType, j.payload, j.priority, j.createdAt, j.executeAfter, j.attempts, j.errorMessage,
         AbsPhase(s, i))
  }

  ghost function Abs(s: QState): (a: AState)
    requires Inv(s)
    ensures |a.jobs| == s.queue.jobCount
    ensures forall i: U64 | i in s.jobs :: a.jobs[i] == AbsJob(s, i)
  {
    AState(s.queue.authority, s.queue.name, s.queue.createdAt, s.queue.maxRetries, s.queue.paused,
           seq(s.queue.jobCount, i requires 0 <= i < s.queue.jobCount && Inv(s) => AbsJob(s, i)),
           s.head.headIndexSeq, s.head.tailIndexSeq)
  }

  /** Page contents seen from the job table. */
  lemma WaitingIffListed(s: QState, i: U64, p: U64)
    requires Inv(s) && i in s.jobs
    ensures AbsPhase(s, i) == Waiting(p) <==> p in s.pages && i in s.pages[p].jobIds
  {
    if p in s.pages && i in s.pages[p].jobIds {
      OnPage(s, p, i);
    }
  }

  lemma OccupancyIsLength(s: QState, p: U64)
    requires Inv(s) && p in s.pages
    ensures Occupancy(Abs(s), p) == |s.pages[p].jobIds|
  {
    var a, ids := Abs(s), s.pages[p].jobIds;
    var waiting := set i: U64 | i < |a.jobs| && a.jobs[i].phase == Waiting(p);
    forall i: U64
      ensures Copies(ids, i) == OneIf(i in waiting)
    {
      if i in ids {
        OnPage(s, p, i);
      }
      if i in s.jobs {
        WaitingIffListed(s, i, p);
      }
    }
    SameBag(ids, waiting);
  }

  // ---- One moved job ----

  lemma MovedOther(s: QState, s': QState, i: U64, p: U64, k: U64)
    requires Inv(s) && Inv(s') && i in s.jobs && p in s.pages && Moved(s, s', i, p)
    requires k in s.jobs && k != i
    ensures k in s'.jobs && AbsJob(s', k) == AbsJob(s, k)
  {
    if s.jobs[k].status.Pending? {
      var q := PageOf(s, k);
      assert Copies(s'.pages[q].jobIds, k) == Copies(s.pages[q].jobIds, k);
      WaitingIffListed(s', k, q);
    }
  }

  lemma {:induction false} MovedJobs(s: QState, s': QState, i: U64, p: U64)
    requires Inv(s) && Inv(s') && i in s.jobs && p in s.pages && Moved(s, s', i, p)
    ensures Abs(s').jobs == Abs(s).jobs[i := AbsJob(s', i)]
  {
    var jobs, jobs' := Abs(s).jobs, Abs(s').jobs;
    assert jobs'[i] == AbsJob(s', i);
    forall k: U64 | k < |jobs| && k != i
      ensures jobs'[k] == jobs[k]
    {
      assert k in s.jobs;
      MovedOther(s, s', i, p, k);
    }
    SeqUpdated(jobs, jobs', i);
  }

  lemma {:induction false} MovedAbs(s: QState, s': QState, i: U64, p: U64)
    requires Inv(s) && Inv(s') && i in s.jobs && p in s.pages && Moved(s, s', i, p)
    ensures Abs(s') == Abs(s).(jobs := Abs(s).jobs[i := AbsJob(s', i)])
  {
    MovedJobs(s, s', i, p);
  }

  lemma SeqUpdated<T>(xs: seq<T>, ys: seq<T>, i: nat)
    requires |xs| == |ys| && i < |xs|
    requires forall k: U64 | k < |xs| && k != i :: ys[k] == xs[k]
    requires |xs| <= U64_MAX
    ensures ys == xs[i := ys[i]]
  {
  }

  lemma SeqExtended<T>(xs: seq<T>, ys: seq<T>)
    requires |ys| == |xs| + 1 && |xs| <= U64_MAX
    requires forall k: U64 | k < |xs| :: ys[k] == xs[k]
    ensures ys == xs + [ys[|xs|]]
  {
  }

  lemma AddedOther(s: QState, s': QState, k: U64)
    requires Inv(s) && Inv(s') && Added(s, s') && k in s.jobs
    ensures k in s'.jobs && AbsJob(s', k) == AbsJob(s, k)
  {
    if s.jobs[k].status.Pending? {
      WaitingIffListed(s', k, PageOf(s, k));
    }
  }

  lemma AddedWaits(s: QState, s': QState)
    requires Inv(s) && Inv(s') && Added(s, s')
    ensures AbsPhase(s', s.queue.jobCount) == Waiting(s.head.tailIndexSeq)
  {
    var n, tail := s.queue.jobCount, s.head.tailIndexSeq;
    assert s'.pages[tail].jobIds[|s.pages[tail].jobIds|] == n;
    WaitingIffListed(s', n, tail);
  }

  lemma {:induction false} AddedJobs(s: QState, s': QState)
    requires Inv(s) && Inv(s') && Added(s, s')
    ensures Abs(s').jobs == Abs(s).jobs + [AbsJob(s', s.queue.jobCount)]
  {
    forall k: U64 | k < s.queue.jobCount
      ensures Abs(s').jobs[k] == Abs(s).jobs[k]
    {
      AddedOther(s, s', k);
    }
    SeqExtended(Abs(s).jobs, Abs(s').jobs);
  }

  lemma {:induction false} AddedAbs(s: QState, s': QState)
    requires Inv(s) && Inv(s') && Added(s, s')
    ensures Abs(s') == Abs(s).(jobs := Abs(s).jobs + [AbsJob(s', s.queue.jobCount)])
  {
    AddedJobs(s, s');
  }

  // ---- Call by call ----

  ghost predicate Simulates(s: QState, c: Call)
    requires Inv(s)
  {
    match Step(s, c)
    case Ok(s') => Inv(s') && AStep(Abs(s), c) == Ok(Abs(s'))
    case Err(e) => AStep(Abs(s), c) == Err(e)
  }

  lemma {:induction false} SameJobsAbs(s: QState, s': QState)
    requires Inv(s) && Inv(s') && s'.jobs == s.jobs && s'.queue.jobCount == s.queue.jobCount
    requires forall p: U64 | p in s.pages :: p in s'.pages && s'.pages[p].jobIds == s.pages[p].jobIds
    ensures Abs(s').jobs == Abs(s).jobs
  {
    var jobs, jobs' := Abs(s).jobs, Abs(s').jobs;
    forall k: U64 | k < |jobs|
      ensures jobs'[k] == jobs[k]
    {
      assert k in s.jobs;
      SameJobAbs(s, s', k);
    }
    assert jobs' == jobs;
  }

  lemma SameJobAbs(s: QState, s': QState, k: U64)
    requires Inv(s) && Inv(s') && k in s.jobs && k in s'.jobs && s'.jobs[k] == s.jobs[k]
    requires forall p: U64 | p in s.pages :: p in s'.pages && s'.pages[p].jobIds == s.pages[p].jobIds
    ensures AbsJob(s', k) == AbsJob(s, k)
  {
    if s.jobs[k].status.Pending? {
      WaitingIffListed(s', k, PageOf(s, k));
    }
  }

  lemma GrowAbstract(s: QState, c: Call, a: AState)
    requires Shape(s) && c.op.GrowIndex? && s.head.tailIndexSeq < U64_MAX
    requires a.tail == s.head.tailIndexSeq && a.authority == s.queue.authority
    requires Occupancy(a, a.tail) == |s.pages[s.head.tailIndexSeq].jobIds|
    ensures match Step(s, c)
            case Ok(_) => AStep(a, c) == Ok(a.(tail := c.op.newSeq))
            case Err(e) => AStep(a, c) == Err(e)
  {
  }

  /** A call that leaves jobs and page contents alone changes the abstraction in these fields only. */
  lemma SameAbs(s: QState, s': QState)
    requires Inv(s) && Inv(s') && s'.jobs == s.jobs && s'.queue == s.queue.(paused := s'.queue.paused)
    requires forall p: U64 | p in s.pages :: p in s'.pages && s'.pages[p].jobIds == s.pages[p].jobIds
    ensures Abs(s') == Abs(s).(paused := s'.queue.paused, head := s'.head.headIndexSeq, tail := s'.head.tailIndexSeq)
  {
    SameJobsAbs(s, s');
  }

  lemma GrowFrame(s: QState, signer: Pubkey, newSeq: U64, s': QState)
    requires Shape(s) && StepGrow(s, signer, newSeq) == Ok(s')
    ensures s'.jobs == s.jobs && s'.queue == s.queue && s'.head == s.head.(tailIndexSeq := newSeq)
    ensures forall p: U64 | p in s.pages :: p in s'.pages && s'.pages[p].jobIds == s.pages[p].jobIds
  {
  }

  lemma GrowSimulates(s: QState, c: Call)
    requires Inv(s) && c.op.GrowIndex?
    ensures Simulates(s, c)
  {
    OccupancyIsLength(s, s.head.tailIndexSeq);
    TailBelow(s);
    GrowAbstract(s, c, Abs(s));
    if Step(s, c).Ok? {
      GrowInv(s, c.op.signer, c.op.newSeq);
      GrowFrame(s, c.op.signer, c.op.newSeq, Step(s, c).value);
      SameAbs(s, Step(s, c).value);
    }
  }

  lemma AdvanceAbstract(s: QState, c: Call, a: AState)
    requires Shape(s) && c.op.AdvanceHead?
    requires a.head == s.head.headIndexSeq && a.tail == s.head.tailIndexSeq
    requires Occupancy(a, a.head) == |s.pages[s.head.headIndexSeq].jobIds|
    ensures match Step(s, c)
            case Ok(_) => AStep(a, c) == Ok(a.(head := s.pages[s.head.headIndexSeq].nextSeq))
            case Err(e) => AStep(a, c) == Err(e)
  {
  }

  lemma AdvanceSimulates(s: QState, c: Call)
    requires Inv(s) && c.op.AdvanceHead?
    ensures Simulates(s, c)
  {
    OccupancyIsLength(s, s.head.headIndexSeq);
    AdvanceAbstract(s, c, Abs(s));
    if Step(s, c).Ok? {
      AdvanceInv(s);
      SameAbs(s, Step(s, c).value);
    }
  }

  lemma PausedSimulates(s: QState, c: Call)
    requires Inv(s) && c.op.SetQueuePaused?
    ensures Simulates(s, c)
  {
    if Step(s, c).Ok? {
      StepInv(s, c);
      SameAbs(s, Step(s, c).value);
    }
  }

  lemma EnqueueAbstract(s: QState, c: Call, a: AState)
    requires Shape(s) && c.op.EnqueueJob? && |a.jobs| == s.queue.jobCount
    requires a.tail == s.head.tailIndexSeq && a.paused == s.queue.paused
    requires Occupancy(a, a.tail) == |s.pages[s.head.tailIndexSeq].jobIds|
    ensures match Step(s, c)
            case Ok(s') =>
              && s.queue.jobCount in s'.jobs
              && var j := s'.jobs[s.queue.jobCount];
                 AStep(a, c) == Ok(a.(jobs := a.jobs + [AJob(j.jobType, j.payload, j.priority, j.createdAt,
                   j.executeAfter, j.attempts, j.errorMessage, Waiting(a.tail))]))
            case Err(e) =>
              e in {Overflow, AccountInUse} || (e == QueueFull && s.queue.jobCount < U64_MAX)
              || AStep(a, c) == Err(e)
  {
  }

  lemma EnqueueSimulates(s: QState, c: Call)
    requires Inv(s) && c.op.EnqueueJob?
    ensures Simulates(s, c)
  {
    var Call(EnqueueJob(payload, jobType, priority, executeAfter), now) := c;
    OccupancyIsLength(s, s.head.tailIndexSeq);
    EnqueueAbstract(s, c, Abs(s));
    match Step(s, c)
    case Err(_) => EnqueueErrors(s, payload, jobType, priority, executeAfter, now);
    case Ok(s') =>
      EnqueueAdded(s, payload, jobType, priority, executeAfter, now);
      AddedInv(s, s');
      AddedWaits(s, s');
      AddedAbs(s, s');
  }

  /** The abstract effect of a committed call on the job it names. */
  ghost predicate Rewrites(s: QState, c: Call, s': QState)
    requires Inv(s) && Inv(s') && IsMove(c.op) && c.op.id in s.jobs && c.op.id in s'.jobs
  {
    AStep(Abs(s), c) == Ok(Abs(s).(jobs := Abs(s).jobs[c.op.id := AbsJob(s', c.op.id)]))
  }

  lemma ClaimRewrites(s: QState, c: Call, s': QState)
    requires Inv(s) && Inv(s') && c.op.ClaimJob? && c.op.id in s.jobs && c.op.id in s'.jobs
    requires JobEffect(c, s.queue.maxRetries, s.jobs[c.op.id], s'.jobs[c.op.id])
    requires c.op.page in s.pages && AbsPhase(s, c.op.id) == Waiting(c.op.page)
    ensures Rewrites(s, c, s')
  {
    var a, id := Abs(s), c.op.id;
    assert a.jobs[id] == AbsJob(s, id);
    assert AbsJob(s', id) == a.jobs[id].(phase := Running(c.op.worker, c.now),
                                         attempts := NextAttempt(a.jobs[id].attempts));
  }

  lemma ClaimSimulates(s: QState, c: Call)
    requires Inv(s) && c.op.ClaimJob?
    ensures Simulates(s, c)
  {
    var Call(ClaimJob(id, page, worker), now) := c;
    match Step(s, c)
    case Ok(s') =>
      ClaimMoved(s, id, page, worker, now);
      MovedInv(s, s', id, page);
      MovedAbs(s, s', id, page);
      WaitingIffListed(s, id, page);
      MoveEffect(s, c);
      ClaimRewrites(s, c, s');
    case Err(_) =>
      if id in s.jobs {
        WaitingIffListed(s, id, page);
      }
  }

  lemma CompleteRewrites(s: QState, c: Call, s': QState)
    requires Inv(s) && Inv(s') && c.op.CompleteJob? && c.op.id in s.jobs && c.op.id in s'.jobs
    requires JobEffect(c, s.queue.maxRetries, s.jobs[c.op.id], s'.jobs[c.op.id])
    requires c.op.result.Some? ==> |c.op.result.value| <= 128
    ensures Rewrites(s, c, s')
  {
  }

  lemma CompleteSimulates(s: QState, c: Call)
    requires Inv(s) && c.op.CompleteJob?
    ensures Simulates(s, c)
  {
    var Call(CompleteJob(id, worker, result), now) := c;
    match Step(s, c)
    case Err(_) => CompleteErrors(s, id, worker, result, now);
    case Ok(s') =>
      CompleteMoved(s, id, worker, result, now);
      MovedInv(s, s', id, 0);
      MovedAbs(s, s', id, 0);
      MoveEffect(s, c);
      CompleteRewrites(s, c, s');
  }

  lemma FailRewrites(s: QState, c: Call, s': QState)
    requires Inv(s) && Inv(s') && c.op.FailJob? && c.op.id in s.jobs && c.op.id in s'.jobs
    requires JobEffect(c, s.queue.maxRetries, s.jobs[c.op.id], s'.jobs[c.op.id])
    requires c.op.page in s.pages && |c.op.message| <= 128
    requires s'.jobs[c.op.id].status.Pending? ==>
      AbsPhase(s', c.op.id) == Waiting(c.op.page) && Occupancy(Abs(s), c.op.page) < MAX_INDEX_ENTRIES
    ensures Rewrites(s, c, s')
  {
  }

  lemma FailGuards(s: QState, c: Call, s': QState)
    requires c.op.FailJob? && Step(s, c) == Ok(s')
    ensures c.op.id in s.jobs && c.op.id in s'.jobs && c.op.page in s.pages && c.op.page in s'.pages
    ensures |c.op.message| <= 128
    ensures s'.jobs[c.op.id].status.Pending? ==>
      c.op.id == s.jobs[c.op.id].jobId ==> c.op.id in s'.pages[c.op.page].jobIds
    ensures s'.jobs[c.op.id].status.Pending? ==> |s.pages[c.op.page].jobIds| < MAX_INDEX_ENTRIES
  {
  }

  lemma FailCommits(s: QState, c: Call, s': QState)
    requires Inv(s) && c.op.FailJob? && Step(s, c) == Ok(s')
    ensures Inv(s') && AStep(Abs(s), c) == Ok(Abs(s'))
  {
    var Call(FailJob(id, page, worker, message, retryAfter), now) := c;
    FailMoved(s, id, page, worker, message, retryAfter, now);
    MovedInv(s, s', id, page);
    MovedAbs(s, s', id, page);
    MoveEffect(s, c);
    FailGuards(s, c, s');
    FailLands(s, c, s');
  }

  lemma {:induction false} FailLands(s: QState, c: Call, s': QState)
    requires Inv(s) && Inv(s') && c.op.FailJob? && c.op.id in s.jobs && c.op.id in s'.jobs
    requires JobEffect(c, s.queue.maxRetries, s.jobs[c.op.id], s'.jobs[c.op.id])
    requires c.op.page in s.pages && c.op.page in s'.pages && |c.op.message| <= 128
    requires s'.jobs[c.op.id].status.Pending? ==>
      c.op.id in s'.pages[c.op.page].jobIds && |s.pages[c.op.page].jobIds| < MAX_INDEX_ENTRIES
    ensures Rewrites(s, c, s')
  {
    OccupancyIsLength(s, c.op.page);
    WaitingIffListed(s', c.op.id, c.op.page);
    FailRewrites(s, c, s');
  }

  lemma {:induction false} FailSimulates(s: QState, c: Call)
    requires Inv(s) && c.op.FailJob?
    ensures Simulates(s, c)
  {
    var Call(FailJob(id, page, worker, message, retryAfter), now) := c;
    match Step(s, c)
    case Ok(s') => FailCommits(s, c, s');
    case Err(_) =>
      FailErrors(s, id, page, worker, message, retryAfter, now);
      if page in s.pages {
        OccupancyIsLength(s, page);
      }
  }

  lemma CancelRewrites(s: QState, c: Call, s': QState)
    requires Inv(s) && Inv(s') && c.op.CancelJob? && c.op.id in s.jobs && c.op.id in s'.jobs
    requires JobEffect(c, s.queue.maxRetries, s.jobs[c.op.id], s'.jobs[c.op.id])
    requires c.op.page in s.pages && AbsPhase(s, c.op.id) == Waiting(c.op.page)
    requires c.op.signer == s.queue.authority
    ensures Rewrites(s, c, s')
  {
  }

  lemma CancelSimulates(s: QState, c: Call)
    requires Inv(s) && c.op.CancelJob?
    ensures Simulates(s, c)
  {
    var Call(CancelJob(id, page, signer), now) := c;
    match Step(s, c)
    case Ok(s') =>
      CancelMoved(s, id, page, signer, now);
      MovedInv(s, s', id, page);
      MovedAbs(s, s', id, page);
      WaitingIffListed(s, id, page);
      MoveEffect(s, c);
      CancelRewrites(s, c, s');
    case Err(_) =>
      if id in s.jobs {
        WaitingIffListed(s, id, page);
      }
  }

  /** Every call, in every state a queue can be in, does to the accounts what the abstract queue
      says: it commits in both, or fails in both with the same error. */
  lemma StepSimulates(s: QState, c: Call)
    requires Inv(s)
    ensures Simulates(s, c)
  {
    match c.op
    case GrowIndex(_, _) => GrowSimulates(s, c);
    case AdvanceHead => AdvanceSimulates(s, c);
    case EnqueueJob(_, _, _, _) => EnqueueSimulates(s, c);
    case ClaimJob(_, _, _) => ClaimSimulates(s, c);
    case CompleteJob(_, _, _) => CompleteSimulates(s, c);
    case FailJob(_, _, _, _, _) => FailSimulates(s, c);
    case CancelJob(_, _, _) => CancelSimulates(s, c);
    case SetQueuePaused(_, _) => PausedSimulates(s, c);
  }

  ghost function AAfter(a: AState, calls: seq<Call>): Result<AState> {
    if calls == [] then Ok(a)
    else
      var b :- AAfter(a, calls[..|calls| - 1]);
      AStep(b, calls[|calls| - 1])
  }

  /** Whole runs: the same calls commit in both machines, and the final states correspond. */
  lemma {:induction false} RunSimulates(g: QState, calls: seq<Call>)
    requires IsGenesis(g)
    ensures Inv(g)
    ensures match After(g, calls)
            case Ok(s) => Inv(s) && AAfter(Abs(g), calls) == Ok(Abs(s))
            case Err(e) => AAfter(Abs(g), calls) == Err(e)
  {
    GenesisInv(g);
    if calls != [] {
      RunSimulates(g, calls[..|calls| - 1]);
      if After(g, calls[..|calls| - 1]).Ok? {
        StepSimulates(After(g, calls[..|calls| - 1]).value, calls[|calls| - 1]);
      }
    }
  }

  /** The order of ids within a page is unobservable: two states that agree up to it answer every
      call alike, and still agree afterwards. */
  lemma OrderIsUnobservable(s: QState, t: QState, c: Call)
    requires Inv(s) && Inv(t) && Abs(s) == Abs(t)
    ensures match (Step(s, c), Step(t, c))
            case (Ok(s'), Ok(t')) => Inv(s') && Inv(t') && Abs(s') == Abs(t')
            case (Err(e), Err(f)) => e == f
            case _ => false
  {
    StepSimulates(s, c);
    StepSimulates(t, c);
  }

  lemma {:induction false} CommitsAlike(s: QState, c: Call)
    requires Inv(s)
    ensures Step(s, c).Ok? <==> AStep(Abs(s), c).Ok?
    ensures Step(s, c).Ok? ==> Inv(Step(s, c).value) && Abs(Step(s, c).value) == AStep(Abs(s), c).value
  {
    StepSimulates(s, c);
  }

  lemma AbstractClaimsCommute(a: AState, c: Call, d: Call)
    requires c.op.ClaimJob? && d.op.ClaimJob? && c.op.id != d.op.id
    requires AStep(a, c).Ok? && AStep(AStep(a, c).value, d).Ok?
    ensures AStep(a, d).Ok? && AStep(AStep(a, d).value, c) == AStep(AStep(a, c).value, d)
  {
    var ab, ba := AStep(AStep(a, c).value, d).value, AStep(AStep(a, d).value, c).value;
    assert ab.jobs == ba.jobs;
  }

  // ---- What the abstraction forgets ----

  lemma RecordFromPhase(key: Pubkey, maxRetries: U8, i: U64, j: JobData, k: JobData, p: U64, q: U64)
    requires JobOk(key, maxRetries, i, j) && JobOk(key, maxRetries, i, k)
    requires PhaseOf(j, p) == PhaseOf(k, q)
    requires j.jobType == k.jobType && j.payload == k.payload && j.priority == k.priority
    requires j.createdAt == k.createdAt && j.executeAfter == k.executeAfter
    requires j.attempts == k.attempts && j.errorMessage == k.errorMessage
    ensures j == k
  {
  }

  lemma SameJob(s: QState, t: QState, i: U64)
    requires Inv(s) && Inv(t) && Abs(s) == Abs(t) && i in s.jobs
    ensures i in t.jobs && s.jobs[i] == t.jobs[i]
  {
    assert i < s.queue.jobCount == |Abs(s).jobs| == t.queue.jobCount;
    var a, b := AbsJob(s, i), AbsJob(t, i);
    assert a == Abs(s).jobs[i] == b;
    RecordFromPhase(s.key, s.queue.maxRetries, i, s.jobs[i], t.jobs[i],
                    if s.jobs[i].status.Pending? then PageOf(s, i) else 0,
                    if t.jobs[i].status.Pending? then PageOf(t, i) else 0);
  }

  lemma SamePageIds(s: QState, t: QState, p: U64)
    requires Inv(s) && Inv(t) && Abs(s) == Abs(t) && p in s.pages && p in t.pages
    ensures multiset(s.pages[p].jobIds) == multiset(t.pages[p].jobIds)
  {
    var ids, ids' := s.pages[p].jobIds, t.pages[p].jobIds;
    forall i: U64
      ensures Copies(ids, i) == Copies(ids', i)
    {
      CopiedAlike(s, t, p, i);
    }
    SameCopies(ids, ids');
  }

  lemma CopiedAlike(s: QState, t: QState, p: U64, i: U64)
    requires Inv(s) && Inv(t) && Abs(s) == Abs(t) && p in s.pages && p in t.pages
    ensures Copies(s.pages[p].jobIds, i) == Copies(t.pages[p].jobIds, i)
  {
    if i in s.pages[p].jobIds {
      ListedAlike(s, t, p, i);
    } else if i in t.pages[p].jobIds {
      ListedAlike(t, s, p, i);
    }
  }

  lemma SamePage(s: QState, t: QState, p: U64)
    requires Inv(s) && Inv(t) && Abs(s) == Abs(t) && p in s.pages
    ensures p in t.pages && s.pages[p] == t.pages[p].(jobIds := s.pages[p].jobIds)
    ensures multiset(s.pages[p].jobIds) == multiset(t.pages[p].jobIds)
  {
    SamePageIds(s, t, p);
  }

  lemma ListedAlike(s: QState, t: QState, p: U64, i: U64)
    requires Inv(s) && Inv(t) && Abs(s) == Abs(t) && p in s.pages && i in s.pages[p].jobIds
    ensures p in t.pages && i in t.pages[p].jobIds
    ensures Copies(s.pages[p].jobIds, i) == 1 == Copies(t.pages[p].jobIds, i)
  {
    OnPage(s, p, i);
    SameJob(s, t, i);
    WaitingIffListed(s, i, p);
    assert AbsPhase(t, i) == Abs(t).jobs[i].phase == Abs(s).jobs[i].phase;
    WaitingIffListed(t, i, p);
    OnPage(t, p, i);
  }

  lemma SameCopies(a: seq<U64>, b: seq<U64>)
    requires forall i: U64 :: Copies(a, i) == Copies(b, i)
    ensures multiset(a) == multiset(b)
  {
    var x, y := multiset(a), multiset(b);
    forall i | i in x || i in y
      ensures x[i] == y[i]
    {
      assert i in a || i in b;
      assert Copies(a, i) == Copies(b, i);
    }
  }

  lemma SameJobs(s: QState, t: QState)
    requires Inv(s) && Inv(t) && Abs(s) == Abs(t)
    ensures s.jobs == t.jobs && s.queue.jobCount == t.queue.jobCount
  {
    forall i: U64 | i in s.jobs
      ensures i in t.jobs && s.jobs[i] == t.jobs[i]
    {
      SameJob(s, t, i);
    }
    forall i: U64 | i in t.jobs
      ensures i in s.jobs
    {
      SameJob(t, s, i);
    }
    EqualMaps(s.jobs, t.jobs);
  }

  lemma EqualMaps<V>(m: map<U64, V>, m': map<U64, V>)
    requires forall k: U64 | k in m :: k in m' && m[k] == m'[k]
    requires forall k: U64 | k in m' :: k in m
    ensures m == m'
  {
  }

  lemma SameRecords(s: QState, t: QState)
    requires Inv(s) && Inv(t) && Abs(s) == Abs(t) && s.jobs == t.jobs && s.queue.jobCount == t.queue.jobCount
    ensures s.key == t.key && s.queue == t.queue && s.head == t.head
  {
  }

  /** The abstraction forgets the order of ids within each page and nothing else: counters, links,
      job records and page contents are all determined by it. */
  lemma OnlyPageOrderIsLost(s: QState, t: QState)
    requires Inv(s) && Inv(t) && Abs(s) == Abs(t)
    ensures s.key == t.key && s.queue == t.queue && s.head == t.head && s.jobs == t.jobs
    ensures forall p: U64 :: p in s.pages <==> p in t.pages
    ensures forall p: U64 | p in s.pages && p in t.pages ::
      && s.pages[p] == t.pages[p].(jobIds := s.pages[p].jobIds)
      && multiset(s.pages[p].jobIds) == multiset(t.pages[p].jobIds)
  {
    SameJobs(s, t);
    SameRecords(s, t);
    forall p: U64 | p in s.pages
      ensures p in t.pages && s.pages[p] == t.pages[p].(jobIds := s.pages[p].jobIds)
      ensures multiset(s.pages[p].jobIds) == multiset(t.pages[p].jobIds)
    {
      SamePage(s, t, p);
    }
  }

  /** Claims of different jobs commute: if they commit in one order they commit in the other,
      and only the order of ids within a page can tell. */
  lemma ClaimsCommute(s: QState, s1: QState, s12: QState, c: Call, d: Call)
    requires Inv(s) && c.op.ClaimJob? && d.op.ClaimJob? && c.op.id != d.op.id
    requires Step(s, c) == Ok(s1) && Step(s1, d) == Ok(s12)
    ensures Step(s, d).Ok? && Step(Step(s, d).value, c).Ok?
    ensures Inv(s12) && Inv(Step(Step(s, d).value, c).value)
    ensures Abs(Step(Step(s, d).value, c).value) == Abs(s12)
  {
    CommitsAlike(s, c);
    CommitsAlike(s1, d);
    AbstractClaimsCommute(Abs(s), c, d);
    CommitsAlike(s, d);
    CommitsAlike(Step(s, d).value, c);
  }

  lemma AbstractErrors(a: AState, c: Call)
    requires AStep(a, c).Err?
    ensures AStep(a, c).error == Overflow ==> c.op.GrowIndex? && c.op.newSeq != a.tail + 1
    ensures AStep(a, c).error == QueueFull ==> c.op.EnqueueJob? && |a.jobs| >= U64_MAX
    ensures AStep(a, c).error == AccountInUse ==> c.op.GrowIndex? && c.op.newSeq <= a.tail
  {
  }

  /** Which of the arithmetic and account-collision errors can occur at all: an overflow report
      only means a wrong page number given to grow_index, a full queue only that job ids have run
      out, and only grow_index can name an account that already exists. */
  lemma ArithmeticErrors(s: QState, c: Call)
    requires Reachable(s) && Step(s, c).Err?
    ensures Step(s, c).error == Overflow ==>
      c.op.GrowIndex? && c.op.newSeq != s.head.tailIndexSeq + 1
    ensures Step(s, c).error == QueueFull ==>
      c.op.EnqueueJob? && s.queue.jobCount == U64_MAX
    ensures Step(s, c).error == AccountInUse ==>
      c.op.GrowIndex? && c.op.newSeq <= s.head.tailIndexSeq
  {
    ReachableImpliesInv(s);
    StepSimulates(s, c);
    AbstractErrors(Abs(s), c);
  }
}
