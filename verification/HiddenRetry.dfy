/** A run in which a retry goes to a page behind the head: the job is pending, and a worker that
    walks from the head never meets it. */
module HiddenRetry {
  import opened Types
  import opened Accounts
  import opened Tallies
  import opened QueueMachine
  import opened QueueInvariants
  import opened QueueTheorems
  import opened Walk
  import opened Drain

  const OWNER: Pubkey := Wallet(0)
  const WORKER: Pubkey := Wallet(1)

  ghost function Fresh(): QState {
    var key := QueuePda(OWNER, [0]);
    QState(key, QueueData(OWNER, [0], 0, 0, 0, 0, 2, false, 0), HeadData(OWNER, 0, 0, 0),
           map[0 := PageData(key, 0, 0, [])], map[])
  }

  ghost predicate Unclaimed(j: JobData) {
    j.status.Pending? && j.executeAfter == 0 && j.attempts == 0
  }

  lemma Extend(s: QState, c: Call, t: QState)
    requires Reachable(s) && Step(s, c) == Ok(t)
    ensures Reachable(t) && Inv(s) && Inv(t)
  {
    ReachableImpliesInv(s);
    StepInv(s, c);
    var g: QState, calls: seq<Call> :| IsGenesis(g) && After(g, calls) == Ok(s);
    AfterOne(s, c);
    AfterConcat(g, calls, [c]);
  }

  /** n jobs wait on the only page. */
  ghost predicate Filled(s: QState, n: U64) {
    && s.queue.authority == OWNER && s.queue.maxRetries == 2 && !s.queue.paused
    && s.head.headIndexSeq == s.head.tailIndexSeq == 0 && s.queue.jobCount == s.head.totalJobs == n
    && 0 in s.pages && |s.pages[0].jobIds| == n
    && forall i: U64 | i in s.jobs :: Unclaimed(s.jobs[i])
  }

  lemma FillStep(s: QState, n: U64)
    requires n < 256 && Filled(s, n) && s.queue.pendingCount <= n && n !in s.jobs
    ensures var r := StepEnqueue(s, [], [0], 0, 0, 0);
      r.Ok? && Filled(r.value, n + 1)
  {
  }

  lemma {:induction false} Fill(n: U64) returns (s: QState)
    requires n <= 256
    ensures Reachable(s) && Inv(s) && Filled(s, n)
  {
    if n == 0 {
      s := Fresh();
      assert IsGenesis(s) && After(s, []) == Ok(s);
      ReachableImpliesInv(s);
    } else {
      var before := Fill(n - 1);
      var c := Call(EnqueueJob([], [0], 0, 0), 0);
      TallyBound(before.jobs, before.queue.jobCount, Active, 1);
      FillStep(before, n - 1);
      s := StepEnqueue(before, [], [0], 0, 0, 0).value;
      Extend(before, c, s);
    }
  }

  /** The first k of 256 jobs are claimed off page 0, and page 1 exists and is empty. */
  ghost predicate Claimed(s: QState, k: U64) {
    && Reachable(s) && Inv(s) && s.queue.maxRetries == 2
    && s.head.headIndexSeq == 0 && s.head.tailIndexSeq == 1 && s.queue.jobCount == 256
    && |s.pages[0].jobIds| + k == 256 && s.pages[1].jobIds == []
    && forall i: U64 | i in s.jobs ::
         if i < k then s.jobs[i].status.Processing? && s.jobs[i].worker == Some(WORKER) && s.jobs[i].attempts == 1
         else Unclaimed(s.jobs[i])
  }

  lemma ListedOnPage0(s: QState, k: U64, i: U64)
    requires Claimed(s, k) && k <= i < 256
    ensures i in s.jobs && Unclaimed(s.jobs[i]) && 0 in s.pages && i in s.pages[0].jobIds
  {
    assert i in s.jobs && Unclaimed(s.jobs[i]);
    var p := PendingIsOnAPage(s, i);
    assert p <= 1;
  }

  lemma TakenOff(s: QState, i: U64, t: QState)
    requires i in s.jobs && 0 in s.pages && s.jobs[i].jobId == i && i in s.pages[0].jobIds
    requires StepClaim(s, i, 0, WORKER, 0) == Ok(t)
    ensures t.head == s.head && t.queue == s.queue
    ensures t.pages == s.pages[0 := s.pages[0].(jobIds := t.pages[0].jobIds)]
    ensures |t.pages[0].jobIds| == |s.pages[0].jobIds| - 1
  {
  }

  lemma OneMoreClaimed(before: QState, s: QState, i: U64)
    requires i < 256 && Claimed(before, i) && Reachable(s) && Inv(s)
    requires s.head == before.head && s.queue == before.queue
    requires s.pages == before.pages[0 := before.pages[0].(jobIds := s.pages[0].jobIds)]
    requires |s.pages[0].jobIds| == |before.pages[0].jobIds| - 1
    requires i in s.jobs && s.jobs == before.jobs[i := s.jobs[i]]
    requires s.jobs[i].status.Processing? && s.jobs[i].worker == Some(WORKER) && s.jobs[i].attempts == 1
    ensures Claimed(s, i + 1)
  {
    forall k: U64 | k in s.jobs && k != i
      ensures s.jobs[k] == before.jobs[k]
    {
    }
  }

  lemma ClaimNext(before: QState, i: U64) returns (s: QState)
    requires i < 256 && Claimed(before, i)
    ensures Claimed(s, i + 1)
  {
    var c := Call(ClaimJob(i, 0, WORKER), 0);
    ListedOnPage0(before, i, i);
    assert Step(before, c) == StepClaim(before, i, 0, WORKER, 0);
    s := Step(before, c).value;
    TakenOff(before, i, s);
    Extend(before, c, s);
    MoveEffect(before, c);
    OneMoreClaimed(before, s, i);
  }

  lemma {:induction false} ClaimFirst(k: U64) returns (s: QState)
    requires k <= 256
    ensures Claimed(s, k)
  {
    if k == 0 {
      var full := Fill(256);
      var c := Call(GrowIndex(OWNER, 1), 0);
      s := Step(full, c).value;
      Extend(full, c, s);
    } else {
      var before := ClaimFirst(k - 1);
      s := ClaimNext(before, k - 1);
    }
  }

  /** So the walk is not complete in every run: the condition on retry pages is needed. */
  lemma {:induction false} HiddenJobExists() returns (s: QState, id: U64)
    ensures Reachable(s) && s.head.headIndexSeq <= s.head.tailIndexSeq
    ensures id in s.jobs && s.jobs[id].status.Pending?
    ensures id !in IdsAlong(s.pages, LivePath(s))
  {
    var claimed := ClaimFirst(256);
    var advance := Call(AdvanceHead, 0);
    assert Step(claimed, advance).Ok?;
    var moved := Step(claimed, advance).value;
    Extend(claimed, advance, moved);
    id := 0;
    assert id in claimed.jobs && claimed.jobs[id].attempts == 1;
    var fail := Call(FailJob(id, 0, WORKER, [], 0), 0);
    assert Step(moved, fail).Ok?;
    s := Step(moved, fail).value;
    Extend(moved, fail, s);
    RetryIsVisibleIff(moved, fail, s);
  }
}
